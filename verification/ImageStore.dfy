// The local image store over any history of pulls: cached blobs, one manifest per image
// directory, and one extracted tree per image directory and layer.

module ImageStore {
  import opened LayerOps
  import opened LayerTree
  import opened LayerShape
  import opened ExtractResume
  import opened LayerDir
  import opened LayerContent
  import opened OverlayView
  import opened BlobCache
  import opened OverlayOptions

  /** manifest.json: the layers' digests, or a write cut short. */
  datatype Manifest = Whole(digests: seq<string>) | Damaged

  /** Where a layer is extracted: the image's directory, then the digest's hex. */
  datatype LayerPath = LayerPath(image: string, name: string)

  datatype Store = Store(blobs: map<string, Bytes>, manifests: map<string, Manifest>, trees: map<LayerPath, Fs>)

  const NOTHING := Store(map[], map[], map[])

  /** One layer of a pull: its digest, and what happens while it is downloaded and extracted. */
  datatype Layer = Layer(digest: string, fetch: Fetch, attempt: Attempt)

  /** How writing the manifest goes. */
  datatype Writing = NotWritten | CutShort | Written

  /** One pull: whether the registry gives a manifest, what it lists, and everything that happens on the way. */
  datatype Pull = Pull(answered: bool, writing: Writing, layers: seq<Layer>)

  datatype Pulled = Pulled(store: Store, ok: bool)

  function TreeAt(s: Store, dir: LayerPath): Fs { if dir in s.trees then s.trees[dir] else EMPTY }

  function OpsOf(codec: Codec, blob: Bytes): seq<LayerOp> { PlanAll(codec.untar(blob).headers) }

  /** extractLayer of a blob that is in the cache. */
  function Extract(codec: Codec, s: Store, dir: LayerPath, blob: Bytes, attempt: Attempt): Pulled {
    var ops := OpsOf(codec, blob);
    var start := TreeAt(s, dir);
    Pulled(s.(trees := s.trees[dir := Try(start, ops, attempt)]),
           Reports(start, ops, attempt) && codec.untar(blob).clean)
  }

  /** The loop body of Pull: the blob, then its extraction. */
  function PullLayer(codec: Codec, s: Store, image: string, layer: Layer): Pulled {
    var name := NameOf(layer.digest);
    var got := PullBlob(codec, s.blobs, layer.digest, layer.fetch);
    var fetched := s.(blobs := got.files);
    if got.ok && name in got.files then Extract(codec, fetched, LayerPath(image, name), got.files[name], layer.attempt)
    else Pulled(fetched, false)
  }

  function PullLayers(codec: Codec, s: Store, image: string, layers: seq<Layer>, n: nat): Pulled
    requires n <= |layers|
  {
    if n == 0 then Pulled(s, true)
    else
      var before := PullLayers(codec, s, image, layers, n - 1);
      if before.ok then PullLayer(codec, before.store, image, layers[n - 1]) else before
  }

  function Digests(layers: seq<Layer>): (digests: seq<string>)
    ensures |digests| == |layers|
    ensures forall i :: 0 <= i < |layers| ==> digests[i] == layers[i].digest
  {
    seq(|layers|, i requires 0 <= i < |layers| => layers[i].digest)
  }

  function WithManifest(s: Store, image: string, manifest: Manifest): Store {
    s.(manifests := s.manifests[image := manifest])
  }

  /** Client.Pull: the manifest is written before the first layer is fetched. */
  function PullImage(codec: Codec, s: Store, image: string, pull: Pull): Pulled {
    if !pull.answered || pull.layers == [] then Pulled(s, false)
    else
      match pull.writing
      case NotWritten => Pulled(s, false)
      case CutShort => Pulled(WithManifest(s, image, Damaged), false)
      case Written =>
        PullLayers(codec, WithManifest(s, image, Whole(Digests(pull.layers))), image, pull.layers, |pull.layers|)
  }

  datatype Event = Event(image: string, pull: Pull)

  function History(codec: Codec, events: seq<Event>): Store {
    if events == [] then NOTHING
    else
      var last := events[|events| - 1];
      PullImage(codec, History(codec, events[..|events| - 1]), last.image, last.pull).store
  }

  // ---- what every history keeps

  /** The tree of a layer directory is whatever attempts at the layer it is named after can leave. */
  ghost predicate TreeIsLeftover(codec: Codec, s: Store, dir: LayerPath) {
    forall blob: Bytes :: codec.hex(blob) == dir.name && WellFormed(OpsOf(codec, blob))
      ==> Leftover(OpsOf(codec, blob), TreeAt(s, dir))
  }

  ghost predicate Sane(codec: Codec, s: Store) {
    && Integrity(codec, s.blobs)
    && forall dir :: TreeIsLeftover(codec, s, dir)
  }

  lemma NothingIsSane(codec: Codec)
    ensures Sane(codec, NOTHING)
  {
    forall dir
      ensures TreeIsLeftover(codec, NOTHING, dir)
    {
      forall blob: Bytes | codec.hex(blob) == dir.name && WellFormed(OpsOf(codec, blob))
        ensures Leftover(OpsOf(codec, blob), TreeAt(NOTHING, dir))
      {
        EmptyIsLeftover(OpsOf(codec, blob));
      }
    }
  }

  lemma ExtractKeeps(codec: Codec, s: Store, dir: LayerPath, blob: Bytes, attempt: Attempt)
    requires CollisionFree(codec) && Sane(codec, s)
    requires codec.hex(blob) == dir.name || IsPart(dir.name)
    ensures Sane(codec, Extract(codec, s, dir, blob, attempt).store)
  {
    var after := Extract(codec, s, dir, blob, attempt).store;
    forall d
      ensures TreeIsLeftover(codec, after, d)
    {
      assert TreeIsLeftover(codec, s, d);
      if d == dir {
        LayerStaysLeftover(codec, s, dir, blob, attempt);
      }
    }
  }

  lemma LayerStaysLeftover(codec: Codec, s: Store, dir: LayerPath, blob: Bytes, attempt: Attempt)
    requires CollisionFree(codec) && TreeIsLeftover(codec, s, dir)
    requires codec.hex(blob) == dir.name || IsPart(dir.name)
    ensures TreeIsLeftover(codec, Extract(codec, s, dir, blob, attempt).store, dir)
  {
    var after := Extract(codec, s, dir, blob, attempt).store;
    forall b: Bytes | codec.hex(b) == dir.name && WellFormed(OpsOf(codec, b))
      ensures Leftover(OpsOf(codec, b), TreeAt(after, dir))
    {
      assert b == blob;
      TryKeepsLeftover(OpsOf(codec, b), TreeAt(s, dir), attempt);
    }
  }

  lemma FetchedIsSane(codec: Codec, s: Store, layer: Layer)
    requires Sane(codec, s)
    ensures Sane(codec, s.(blobs := PullBlob(codec, s.blobs, layer.digest, layer.fetch).files))
  {
    PullBlobKeeps(codec, s.blobs, layer.digest, layer.fetch);
    var fetched := s.(blobs := PullBlob(codec, s.blobs, layer.digest, layer.fetch).files);
    forall d
      ensures TreeIsLeftover(codec, fetched, d)
    {
      assert TreeIsLeftover(codec, s, d);
      assert TreeAt(fetched, d) == TreeAt(s, d);
    }
  }

  lemma {:induction false} PullLayerKeeps(codec: Codec, s: Store, image: string, layer: Layer)
    requires CollisionFree(codec) && Sane(codec, s)
    ensures Sane(codec, PullLayer(codec, s, image, layer).store)
  {
    var name := NameOf(layer.digest);
    var got := PullBlob(codec, s.blobs, layer.digest, layer.fetch);
    FetchedIsSane(codec, s, layer);
    if got.ok && name in got.files {
      ExtractKeeps(codec, s.(blobs := got.files), LayerPath(image, name), got.files[name], layer.attempt);
    }
  }

  lemma {:induction false} PullLayersKeep(codec: Codec, s: Store, image: string, layers: seq<Layer>, n: nat)
    requires CollisionFree(codec) && Sane(codec, s) && n <= |layers|
    ensures Sane(codec, PullLayers(codec, s, image, layers, n).store)
  {
    if n > 0 {
      PullLayersKeep(codec, s, image, layers, n - 1);
      if PullLayers(codec, s, image, layers, n - 1).ok {
        PullLayerKeeps(codec, PullLayers(codec, s, image, layers, n - 1).store, image, layers[n - 1]);
      }
    }
  }

  lemma {:induction false} HistoryIsSane(codec: Codec, events: seq<Event>)
    requires CollisionFree(codec)
    ensures Sane(codec, History(codec, events))
  {
    if events == [] {
      NothingIsSane(codec);
    } else {
      var last := events[|events| - 1];
      var before := History(codec, events[..|events| - 1]);
      HistoryIsSane(codec, events[..|events| - 1]);
      ManifestKeeps(codec, before, last.image, Damaged);
      ManifestKeeps(codec, before, last.image, Whole(Digests(last.pull.layers)));
      PullLayersKeep(codec, WithManifest(before, last.image, Whole(Digests(last.pull.layers))),
                     last.image, last.pull.layers, |last.pull.layers|);
    }
  }

  lemma ManifestKeeps(codec: Codec, s: Store, image: string, manifest: Manifest)
    requires Sane(codec, s)
    ensures Sane(codec, WithManifest(s, image, manifest))
  {
    forall d
      ensures TreeIsLeftover(codec, WithManifest(s, image, manifest), d)
    {
      assert TreeIsLeftover(codec, s, d);
      assert TreeAt(WithManifest(s, image, manifest), d) == TreeAt(s, d);
    }
  }

  // ---- what a successful pull leaves

  /** Every content of this name is an ordinary layer. */
  ghost predicate OrdinaryLayer(codec: Codec, name: string) {
    && !IsPart(name)
    && forall blob: Bytes :: codec.hex(blob) == name ==> WellFormed(OpsOf(codec, blob))
  }

  /** The layer's blob is the one its digest names, and its tree is the one a fresh extraction gives. */
  ghost predicate LayerReady(codec: Codec, s: Store, image: string, name: string) {
    && name in s.blobs && codec.hex(s.blobs[name]) == name
    && LayerPath(image, name) in s.trees
    && ViewOf(s.trees[LayerPath(image, name)]) == Extracted(OpsOf(codec, s.blobs[name]))
  }

  lemma ExtractedReady(codec: Codec, s: Store, image: string, name: string, attempt: Attempt)
    requires Sane(codec, s) && OrdinaryLayer(codec, name)
    requires name in s.blobs && codec.hex(s.blobs[name]) == name
    requires Extract(codec, s, LayerPath(image, name), s.blobs[name], attempt).ok && NoErrors(attempt)
    ensures LayerReady(codec, Extract(codec, s, LayerPath(image, name), s.blobs[name], attempt).store, image, name)
  {
    var dir, ops := LayerPath(image, name), OpsOf(codec, s.blobs[name]);
    assert TreeIsLeftover(codec, s, dir);
    ReportedIsPass(TreeAt(s, dir), ops, attempt);
    PassShows(ops, TreeAt(s, dir));
    EmptyIsLeftover(ops);
    PassShows(ops, EMPTY);
  }

  lemma PulledLayerReady(codec: Codec, s: Store, image: string, layer: Layer)
    requires CollisionFree(codec) && Sane(codec, s) && OrdinaryLayer(codec, NameOf(layer.digest))
    requires PullLayer(codec, s, image, layer).ok && NoErrors(layer.attempt)
    ensures LayerReady(codec, PullLayer(codec, s, image, layer).store, image, NameOf(layer.digest))
  {
    var name := NameOf(layer.digest);
    var got := PullBlob(codec, s.blobs, layer.digest, layer.fetch);
    PulledBlobIsRight(codec, s.blobs, layer.digest, layer.fetch);
    FetchedIsSane(codec, s, layer);
    ExtractedReady(codec, s.(blobs := got.files), image, name, layer.attempt);
  }

  lemma OtherLayerStays(codec: Codec, s: Store, image: string, layer: Layer, name: string)
    requires Sane(codec, s) && LayerReady(codec, s, image, name) && !IsPart(name) && name != NameOf(layer.digest)
    ensures LayerReady(codec, PullLayer(codec, s, image, layer).store, image, name)
  {
    PullBlobKeeps(codec, s.blobs, layer.digest, layer.fetch);
  }

  ghost predicate AllReady(codec: Codec, s: Store, image: string, layers: seq<Layer>, n: nat)
    requires n <= |layers|
  {
    forall i :: 0 <= i < n ==> LayerReady(codec, s, image, NameOf(layers[i].digest))
  }

  ghost predicate OrdinaryLayers(codec: Codec, layers: seq<Layer>) {
    forall i :: 0 <= i < |layers| ==> OrdinaryLayer(codec, NameOf(layers[i].digest))
  }

  /** No extraction met an error that the code ignores. */
  ghost predicate Undisturbed(layers: seq<Layer>) {
    forall i :: 0 <= i < |layers| ==> NoErrors(layers[i].attempt)
  }

  lemma PullLayerStays(codec: Codec, s: Store, image: string, layer: Layer, name: string)
    requires CollisionFree(codec) && Sane(codec, s) && LayerReady(codec, s, image, name) && OrdinaryLayer(codec, name)
    requires OrdinaryLayer(codec, NameOf(layer.digest)) && PullLayer(codec, s, image, layer).ok &&
      NoErrors(layer.attempt)
    ensures LayerReady(codec, PullLayer(codec, s, image, layer).store, image, name)
  {
    if name == NameOf(layer.digest) {
      PulledLayerReady(codec, s, image, layer);
    } else {
      OtherLayerStays(codec, s, image, layer, name);
    }
  }

  lemma PullLayerManifests(codec: Codec, s: Store, image: string, layer: Layer)
    ensures PullLayer(codec, s, image, layer).store.manifests == s.manifests
  {
  }

  lemma {:induction false} PulledLayersReady(codec: Codec, s: Store, image: string, layers: seq<Layer>, n: nat)
    requires CollisionFree(codec) && Sane(codec, s) && OrdinaryLayers(codec, layers) && n <= |layers|
    requires PullLayers(codec, s, image, layers, n).ok && Undisturbed(layers)
    ensures AllReady(codec, PullLayers(codec, s, image, layers, n).store, image, layers, n)
    ensures PullLayers(codec, s, image, layers, n).store.manifests == s.manifests
  {
    hide PullLayer, LayerReady, Sane, OrdinaryLayer, NoErrors;
    if n > 0 {
      var before := PullLayers(codec, s, image, layers, n - 1).store;
      PulledLayersReady(codec, s, image, layers, n - 1);
      PullLayerManifests(codec, before, image, layers[n - 1]);
      assert OrdinaryLayer(codec, NameOf(layers[n - 1].digest));
      PullLayersKeep(codec, s, image, layers, n - 1);
      PulledLayerReady(codec, before, image, layers[n - 1]);
      forall i | 0 <= i < n - 1
        ensures LayerReady(codec, PullLayer(codec, before, image, layers[n - 1]).store, image, NameOf(layers[i].digest))
      {
        assert OrdinaryLayer(codec, NameOf(layers[i].digest));
        PullLayerStays(codec, before, image, layers[n - 1], NameOf(layers[i].digest));
      }
    }
  }

  // ---- reading the image back

  datatype Loaded = NoImage | Layers(dirs: seq<LayerPath>)

  /** LoadManifest: the layer directories, lowest first. */
  function LoadManifest(s: Store, image: string): Loaded {
    if image in s.manifests && s.manifests[image].Whole? then Layers(DirsOf(image, s.manifests[image].digests))
    else NoImage
  }

  function DirsOf(image: string, digests: seq<string>): (dirs: seq<LayerPath>)
    ensures |dirs| == |digests|
    ensures forall i :: 0 <= i < |dirs| ==> dirs[i] == LayerPath(image, NameOf(digests[i]))
  {
    seq(|digests|, i requires 0 <= i < |digests| => LayerPath(image, NameOf(digests[i])))
  }

  /** The layer directory's path. */
  function PathOf(dir: LayerPath): string { dir.image + "/rootfs/" + dir.name }

  function PathsOf(dirs: seq<LayerPath>): (paths: seq<string>)
    ensures |paths| == |dirs| && forall i :: 0 <= i < |dirs| ==> paths[i] == PathOf(dirs[i])
  {
    seq(|dirs|, i requires 0 <= i < |dirs| => PathOf(dirs[i]))
  }

  function Trees(s: Store, dirs: seq<LayerPath>): (views: seq<View>)
    ensures |views| == |dirs|
    ensures forall i :: 0 <= i < |dirs| ==> views[i] == ViewOf(TreeAt(s, dirs[i]))
  {
    seq(|dirs|, i requires 0 <= i < |dirs| => ViewOf(TreeAt(s, dirs[i])))
  }

  /** The stack that a container of this image gets mounted. */
  function Mounted(s: Store, image: string): seq<View> {
    match LoadManifest(s, image)
    case NoImage => []
    case Layers(dirs) => Trees(s, Reversed(dirs))
  }
}
