// Which image directories can be trusted after failures: those whose layers were each
// finished by the last pull that worked on them.

module LastAttempts {
  import opened LayerOps
  import opened LayerTree
  import opened LinkedTree
  import opened LinkFree
  import opened LayerShape
  import opened ExtractSteps
  import opened ExtractResume
  import opened LayerContent
  import opened StackedForm
  import opened BlobCache
  import opened ImageStore
  import opened ImageTheorems
  import opened LayerCases

  /** The pull got as far as working on the layer's directory. */
  predicate WorksOn(codec: Codec, s: Store, layer: Layer) {
    PullBlob(codec, s.blobs, layer.digest, layer.fetch).ok && layer.attempt != Stopped([])
  }

  /** The layer directories whose last attempt succeeded without an error, before and after one more layer. */
  function FinishLayer(codec: Codec, s: Store, image: string, layer: Layer, done: set<LayerPath>): set<LayerPath> {
    var dir := LayerPath(image, NameOf(layer.digest));
    if !WorksOn(codec, s, layer) then done
    else if PullLayer(codec, s, image, layer).ok && NoErrors(layer.attempt) then done + {dir}
    else done - {dir}
  }

  function FinishLayers(codec: Codec, s: Store, image: string, layers: seq<Layer>, n: nat,
                        done: set<LayerPath>): set<LayerPath>
    requires n <= |layers|
  {
    if n == 0 then done
    else
      var before := PullLayers(codec, s, image, layers, n - 1);
      var sofar := FinishLayers(codec, s, image, layers, n - 1, done);
      if before.ok then FinishLayer(codec, before.store, image, layers[n - 1], sofar) else sofar
  }

  function FinishPull(codec: Codec, s: Store, image: string, pull: Pull, done: set<LayerPath>): set<LayerPath> {
    if !pull.answered || pull.layers == [] || pull.writing != Written then done
    else FinishLayers(codec, WithManifest(s, image, Whole(Digests(pull.layers))), image, pull.layers, |pull.layers|,
      done)
  }

  function Finished(codec: Codec, events: seq<Event>): set<LayerPath> {
    if events == [] then {}
    else
      var init, last := events[..|events| - 1], events[|events| - 1];
      FinishPull(codec, History(codec, init), last.image, last.pull, Finished(codec, init))
  }

  /** Finished layers, as far as they are ordinary, are ready. */
  ghost predicate FinishedReady(codec: Codec, s: Store, done: set<LayerPath>) {
    forall dir :: dir in done && OrdinaryLayer(codec, dir.name) ==> LayerReady(codec, s, dir.image, dir.name)
  }

  /** Work on one directory leaves every other ready one ready, in this image and in others. */
  lemma ElsewhereStaysReady(codec: Codec, s: Store, image: string, layer: Layer, dir: LayerPath)
    requires Sane(codec, s) && LayerReady(codec, s, dir.image, dir.name) && !IsPart(dir.name)
    requires WorksOn(codec, s, layer) ==> dir != LayerPath(image, NameOf(layer.digest))
    ensures LayerReady(codec, PullLayer(codec, s, image, layer).store, dir.image, dir.name)
  {
    PullBlobKeeps(codec, s.blobs, layer.digest, layer.fetch);
    var after := PullLayer(codec, s, image, layer).store;
    assert dir == LayerPath(dir.image, dir.name);
    assert dir in after.trees && after.trees[dir] == s.trees[dir];
  }

  lemma FinishedStays(codec: Codec, s: Store, image: string, layer: Layer, done: set<LayerPath>)
    requires CollisionFree(codec) && Sane(codec, s) && FinishedReady(codec, s, done)
    ensures FinishedReady(codec, PullLayer(codec, s, image, layer).store, FinishLayer(codec, s, image, layer, done))
  {
    hide Sane, LayerReady, OrdinaryLayer, WorksOn, PullLayer;
    forall dir | dir in FinishLayer(codec, s, image, layer, done) && OrdinaryLayer(codec, dir.name)
      ensures LayerReady(codec, PullLayer(codec, s, image, layer).store, dir.image, dir.name)
    {
      NotPart(codec, dir.name);
      if WorksOn(codec, s, layer) && dir == LayerPath(image, NameOf(layer.digest)) {
        PulledLayerReady(codec, s, image, layer);
      } else {
        ElsewhereStaysReady(codec, s, image, layer, dir);
      }
    }
  }

  lemma NotPart(codec: Codec, name: string)
    requires OrdinaryLayer(codec, name)
    ensures !IsPart(name)
  {
  }

  lemma {:induction false} FinishedLayersReady(codec: Codec, s: Store, image: string, layers: seq<Layer>, n: nat,
                                               done: set<LayerPath>)
    requires CollisionFree(codec) && Sane(codec, s) && FinishedReady(codec, s, done) && n <= |layers|
    ensures FinishedReady(codec, PullLayers(codec, s, image, layers, n).store,
      FinishLayers(codec, s, image, layers, n, done))
  {
    hide FinishedReady, Sane, PullLayer, FinishLayer;
    if n > 0 {
      FinishedLayersReady(codec, s, image, layers, n - 1, done);
      PullLayersKeep(codec, s, image, layers, n - 1);
      var before := PullLayers(codec, s, image, layers, n - 1);
      if before.ok {
        FinishedStays(codec, before.store, image, layers[n - 1], FinishLayers(codec, s, image, layers, n - 1, done));
      }
    }
  }

  lemma ManifestLeavesReady(codec: Codec, s: Store, image: string, manifest: Manifest, done: set<LayerPath>)
    requires FinishedReady(codec, s, done)
    ensures FinishedReady(codec, WithManifest(s, image, manifest), done)
  {
    forall dir | dir in done && OrdinaryLayer(codec, dir.name)
      ensures LayerReady(codec, WithManifest(s, image, manifest), dir.image, dir.name)
    {
      assert LayerReady(codec, s, dir.image, dir.name);
    }
  }

  lemma {:induction false} HistoryFinishes(codec: Codec, events: seq<Event>)
    requires CollisionFree(codec)
    ensures FinishedReady(codec, History(codec, events), Finished(codec, events))
  {
    hide FinishedReady, Sane;
    if events == [] {
      NothingFinished(codec);
    } else {
      var init, last := events[..|events| - 1], events[|events| - 1];
      var s, done := History(codec, init), Finished(codec, init);
      var manifest := Whole(Digests(last.pull.layers));
      HistoryFinishes(codec, init);
      HistoryIsSane(codec, init);
      ManifestLeavesReady(codec, s, last.image, Damaged, done);
      ManifestLeavesReady(codec, s, last.image, manifest, done);
      ManifestKeeps(codec, s, last.image, manifest);
      FinishedLayersReady(codec, WithManifest(s, last.image, manifest), last.image, last.pull.layers,
        |last.pull.layers|, done);
    }
  }

  lemma NothingFinished(codec: Codec)
    ensures FinishedReady(codec, NOTHING, {})
  {
  }

  /** Layers known by their digests alone. */
  function Known(digests: seq<string>): (layers: seq<Layer>)
    ensures |layers| == |digests| && forall i :: 0 <= i < |layers| ==> layers[i].digest == digests[i]
  {
    seq(|digests|, i requires 0 <= i < |digests| => Layer(digests[i], Refused, Complete))
  }

  /** Each layer that the image's manifest names was finished by the last pull that worked on it. */
  ghost predicate AllFinished(codec: Codec, events: seq<Event>, image: string, digests: seq<string>) {
    forall i :: 0 <= i < |digests| ==>
      OrdinaryLayer(codec, NameOf(digests[i])) && LayerPath(image, NameOf(digests[i])) in Finished(codec, events)
  }

  /**
   After any history, whatever the last pull of this image did: if each layer directory
   that its manifest names was finished by the last pull that worked on it, the mounted
   stack is exactly that of the layers which the manifest names by digest.
   */
  lemma {:induction false} FinishedImageIsMounted(codec: Codec, events: seq<Event>, image: string, digests: seq<string>)
    returns (layers: Image)
    requires CollisionFree(codec) && AllFinished(codec, events, image, digests)
    requires image in History(codec, events).manifests && History(codec, events).manifests[image] == Whole(digests)
    ensures ByDigest(codec, Known(digests), layers)
    ensures Mounted(History(codec, events), image) == StackOf(layers)
  {
    hide History, Finished, LayerReady, OrdinaryLayer, Mounted;
    var s := History(codec, events);
    HistoryFinishes(codec, events);
    assert Digests(Known(digests)) == digests;
    forall i | 0 <= i < |digests|
      ensures LayerReady(codec, s, image, NameOf(Known(digests)[i].digest))
    {
      assert FinishedReady(codec, s, Finished(codec, events));
      assert LayerPath(image, NameOf(digests[i])) in Finished(codec, events);
    }
    ReadyInStore(codec, s, image, Known(digests));
    layers := ImageOf(codec, s, Known(digests));
    ReadyIsByDigest(codec, s, image, Known(digests));
    ReadyIsMounted(codec, s, image, Known(digests));
  }

  lemma ReadyInStore(codec: Codec, s: Store, image: string, layers: seq<Layer>)
    requires AllReady(codec, s, image, layers, |layers|)
    ensures forall i :: 0 <= i < |layers| ==> NameOf(layers[i].digest) in s.blobs
  {
    forall i | 0 <= i < |layers|
      ensures NameOf(layers[i].digest) in s.blobs
    {
      assert LayerReady(codec, s, image, NameOf(layers[i].digest));
    }
  }

  // ---- a pull that succeeds finishes its layers

  lemma SuccessFinishesLayer(codec: Codec, s: Store, image: string, layer: Layer, done: set<LayerPath>)
    requires PullLayer(codec, s, image, layer).ok && NoErrors(layer.attempt)
    ensures FinishLayer(codec, s, image, layer, done) == done + {LayerPath(image, NameOf(layer.digest))}
  {
  }

  lemma {:induction false} SuccessFinishesLayers(codec: Codec, s: Store, image: string, layers: seq<Layer>, n: nat,
                                                 done: set<LayerPath>)
    requires n <= |layers| && PullLayers(codec, s, image, layers, n).ok && Undisturbed(layers)
    ensures forall i :: 0 <= i < n ==>
      LayerPath(image, NameOf(layers[i].digest)) in FinishLayers(codec, s, image, layers, n, done)
  {
    hide PullLayer, FinishLayer, NoErrors;
    if n > 0 {
      SuccessFinishesLayers(codec, s, image, layers, n - 1, done);
      var before, sofar := PullLayers(codec, s, image, layers, n - 1),
        FinishLayers(codec, s, image, layers, n - 1, done);
      SuccessFinishesLayer(codec, before.store, image, layers[n - 1], sofar);
    }
  }

  /** After a successful pull the condition of FinishedImageIsMounted holds of its image. */
  lemma {:induction false} SuccessFinishes(codec: Codec, events: seq<Event>, image: string, pull: Pull)
    requires OrdinaryLayers(codec, pull.layers) && Undisturbed(pull.layers)
    requires PullImage(codec, History(codec, events), image, pull).ok
    ensures AllFinished(codec, events + [Event(image, pull)], image, Digests(pull.layers))
  {
    hide OrdinaryLayer, FinishLayers, PullLayers;
    var all := events + [Event(image, pull)];
    var start := WithManifest(History(codec, events), image, Whole(Digests(pull.layers)));
    assert all[..|all| - 1] == events;
    SuccessFinishesLayers(codec, start, image, pull.layers, |pull.layers|, Finished(codec, events));
  }

  // ---- and one that is cut short can undo a good directory

  /** The first n entries go through, and the next one is stopped right after its file is truncated. */
  function StopAtOpen(n: nat): Attempt { Stopped(seq(n, _ => Through) + [Cut(Tear(0, true, 0, {}))]) }

  lemma TruncatedFile(fs: Fs, p: Path, data: Bytes)
    requires p != [] && !Blocked(fs.nodes, Parent(p)) && (p in fs.nodes ==> fs.nodes[p].File?)
    requires Tree(fs) && NoLinkAt(fs.nodes, p)
    ensures p in Torn(fs, Write(p, data), Tear(0, true, 0, {})).nodes
    ensures Shown(Torn(fs, Write(p, data), Tear(0, true, 0, {})), p) == VFile([])
  {
    TornWriteIsPlain(fs, p, data, Tear(0, true, 0, {}));
  }

  lemma WriteTarget(ops: seq<LayerOp>, n: nat, fs: Fs)
    requires WellFormed(ops) && n < |ops| && ops[n].Write? && Sound(ops, Roots(ops, |ops|), fs)
    ensures ops[n].p != [] && !Blocked(fs.nodes, Parent(ops[n].p)) &&
      (ops[n].p in fs.nodes ==> fs.nodes[ops[n].p].File?)
    ensures Tree(fs) && NoLinkAt(fs.nodes, ops[n].p)
  {
    var roots, p := Roots(ops, |ops|), ops[n].p;
    EntryFits(ops, n);
    EntryIsStraight(ops, roots, Touched(ops, n), n, fs);
    NotBlocked(ops, roots, fs.nodes, Parent(p));
    if p in fs.nodes {
      assert RightKind(ops, roots, p, fs.nodes[p]);
    }
  }

  /**
   So the condition cannot be dropped: for every well-formed layer with a file that is not
   empty, and whatever its directory holds, an attempt can stop so that the directory does
   not show the layer.
   */
  lemma {:induction false} InterruptedPullSpoils(ops: seq<LayerOp>, n: nat, fs: Fs)
    requires WellFormed(ops) && Leftover(ops, fs) && n < |ops| && ops[n].Write? && ops[n].data != []
    ensures ViewOf(Try(fs, ops, StopAtOpen(n))) != Extracted(ops)
  {
    hide WellFormed, Run, Limp, ApplyOp, Torn, Sound, Roots, Touched;
    var p, course := ops[n].p, StopAtOpen(n).course;
    var before, after := Run(fs, ops, n).fs, Try(fs, ops, StopAtOpen(n));
    Pass(ops, n, fs);
    ThroughIsRun(fs, ops, course, n);
    LastGo(fs, ops, course, n);
    WriteTarget(ops, n, before);
    TruncatedFile(before, p, ops[n].data);
    assert p in ViewOf(after) && ViewOf(after)[p] == VFile([]);
    WrittenOrGone(ops, n);
  }

  lemma LastGo(fs: Fs, ops: seq<LayerOp>, course: seq<Go>, n: nat)
    requires n < |ops| && |course| == n + 1
    ensures Limp(fs, ops, course, n + 1) == GoOn(Limp(fs, ops, course, n), ops[n], course[n])
  {
  }

  lemma WrittenOrGone(ops: seq<LayerOp>, n: nat)
    requires WellFormed(ops) && n < |ops| && ops[n].Write?
    ensures ops[n].p in Extracted(ops) ==> Extracted(ops)[ops[n].p] == VFile(ops[n].data)
  {
    EmptyIsLeftover(ops);
    PassShows(ops, EMPTY);
    LeafFits(ops, n);
  }

  /**
   In the store: a pull of a cached layer that is cut short there leaves the layer's directory
   not ready, although it was ready before.
   */
  lemma {:induction false} CutShortIsNotReady(codec: Codec, s: Store, image: string, layer: Layer, n: nat)
    requires Sane(codec, s) && OrdinaryLayer(codec, NameOf(layer.digest)) && NameOf(layer.digest) in s.blobs
    requires codec.hex(s.blobs[NameOf(layer.digest)]) == NameOf(layer.digest) && layer.attempt == StopAtOpen(n)
    requires var ops := OpsOf(codec, s.blobs[NameOf(layer.digest)]); n < |ops| && ops[n].Write? && ops[n].data != []
    ensures !PullLayer(codec, s, image, layer).ok
    ensures !LayerReady(codec, PullLayer(codec, s, image, layer).store, image, NameOf(layer.digest))
  {
    hide Try, Leftover, WellFormed, Extracted;
    var name := NameOf(layer.digest);
    var dir, ops := LayerPath(image, name), OpsOf(codec, s.blobs[name]);
    assert TreeIsLeftover(codec, s, dir);
    InterruptedPullSpoils(ops, n, TreeAt(s, dir));
  }

  /**
   Extraction goes over what is there: a layer that leaves a file where one of its entries
   wants a directory can be pulled once at most, unless its directory is emptied by hand.
   */
  lemma {:induction false} BlockedLayerStaysBlocked(codec: Codec, s: Store, image: string, digest: string, first: Fetch,
                                                    again: Fetch, i: nat, p: Path)
    requires NameOf(digest) in s.blobs && LayerPath(image, NameOf(digest)) !in s.trees
    requires var ops := OpsOf(codec, s.blobs[NameOf(digest)]);
             && Linkless(ops) && i < |ops| && WantsDirAt(ops[i], p)
             && (forall k :: 0 <= k < i ==>
                   !(ops[k].Whiteout? && ops[k].p <= p) && !(ops[k].HardLink? && ops[k].p == p))
             && var end := Run(EMPTY, ops, |ops|).fs; p in end.nodes && end.nodes[p].File?
    ensures var once := PullLayer(codec, s, image, Layer(digest, first, Complete)).store;
            !PullLayer(codec, once, image, Layer(digest, again, Complete)).ok
  {
    hide Run, OpsOf, Linkless, WantsDirAt;
    FileBlocksResume(OpsOf(codec, s.blobs[NameOf(digest)]), i, p);
  }
}
