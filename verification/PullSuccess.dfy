// When a pull succeeds: in terms of what the registry, the disk and the archives do.

module PullSuccess {
  import opened LayerOps
  import opened LayerTree
  import opened LinkedTree
  import opened LinkFree
  import opened LayerShape
  import opened ExtractSteps
  import opened ExtractResume
  import opened BlobCache
  import opened ImageStore

  // ---- one layer's entries

  lemma PlainEntryGoes(ops: seq<LayerOp>, roots: map<Path, nat>, touched: set<Path>, n: nat, fs: Fs)
    requires n < |ops| && Fits(roots, touched, n, ops[n]) && Sound(ops, roots, fs)
    ensures PlainOp(fs, ops[n]).ok
  {
    match ops[n]
    case MkDir(p) => DirsSound(ops, roots, fs, p);
    case Write(p, data) =>
      DirsSound(ops, roots, fs, Parent(p));
      OpenSound(ops, roots, fs.(nodes := WithDirs(fs.nodes, Parent(p))), p, data);
    case SymLink(p, _) => RoomSound(ops, roots, fs, p);
    case _ =>
  }

  /** Over any leftover tree no entry of an ordinary layer fails by itself. */
  lemma EntryGoes(ops: seq<LayerOp>, n: nat, fs: Fs)
    requires WellFormed(ops) && Leftover(ops, fs) && n < |ops|
    ensures ApplyOp(fs, ops[n]).ok
  {
    hide WellFormed, Fits, ApplyOp, PlainOp, Roots, Touched, Straight;
    var roots, touched := Roots(ops, |ops|), Touched(ops, n);
    EntryFits(ops, n);
    EntryIsStraight(ops, roots, touched, n, fs);
    OpIsPlain(fs, ops[n]);
    PlainEntryGoes(ops, roots, touched, n, fs);
  }

  /** The errors of an attempt are those that the code ignores: of whiteouts and hard links. */
  predicate OnlyIgnored(ops: seq<LayerOp>, course: seq<Go>, n: nat)
    requires n <= |ops| && n <= |course|
  {
    forall i :: 0 <= i < n && course[i].Cut? ==> ops[i].Whiteout? || ops[i].HardLink?
  }

  lemma {:induction false} LimpOkIff(ops: seq<LayerOp>, fs: Fs, course: seq<Go>, n: nat)
    requires WellFormed(ops) && Leftover(ops, fs) && n <= |ops| && n <= |course|
    ensures LimpOk(fs, ops, course, n) <==> OnlyIgnored(ops, course, n)
  {
    hide WellFormed, Leftover, ApplyOp, Limp;
    if n > 0 {
      LimpOkIff(ops, fs, course, n - 1);
      LimpKeepsLeftover(ops, fs, course, n - 1);
      EntryGoes(ops, n - 1, Limp(fs, ops, course, n - 1));
      assert OnlyIgnored(ops, course, n) <==>
        OnlyIgnored(ops, course, n - 1) && (course[n - 1].Cut? ==> ops[n - 1].Whiteout? || ops[n - 1].HardLink?);
    }
  }

  /** The attempt comes to the archive's end without an error that counts. */
  predicate Endures(ops: seq<LayerOp>, a: Attempt) {
    a.Complete? || (a.Limping? && |a.course| >= |ops| && OnlyIgnored(ops, a.course, |ops|))
  }

  lemma ReportsIff(ops: seq<LayerOp>, fs: Fs, a: Attempt)
    requires WellFormed(ops) && Leftover(ops, fs)
    ensures Reports(fs, ops, a) <==> Endures(ops, a)
  {
    hide WellFormed, Leftover, Run;
    match a
    case Complete => Pass(ops, |ops|, fs);
    case Stopped(_) =>
    case Limping(course) =>
      if |course| >= |ops| {
        LimpOkIff(ops, fs, course, |ops|);
      }
  }

  // ---- one layer

  /** The download gives what the digest names, and it is renamed into place. */
  predicate Downloads(codec: Codec, layer: Layer) {
    layer.fetch.Served? && layer.fetch.renamed && layer.digest == "sha256:" + codec.hex(layer.fetch.body)
  }

  /** The content that the digest names can be read to its end, and the attempt endures. */
  ghost predicate Extracts(codec: Codec, layer: Layer) {
    forall blob: Bytes :: "sha256:" + codec.hex(blob) == layer.digest || codec.hex(blob) == layer.digest ==>
      codec.untar(blob).clean && Endures(OpsOf(codec, blob), layer.attempt)
  }

  /** The digest as the registry writes it, or without its algorithm. */
  lemma NamedIff(digest: string, hash: string)
    ensures !("sha256:" <= hash) ==> (NameOf(digest) == hash <==> digest == "sha256:" + hash || digest == hash)
  {
    if "sha256:" <= digest {
      assert digest == "sha256:" + digest[7..];
    }
    if digest == "sha256:" + hash {
      assert digest[7..] == hash;
    }
  }

  /** Hashes in hex do not begin with the algorithm's name. */
  ghost predicate PlainHashes(codec: Codec) { forall blob: Bytes :: !("sha256:" <= codec.hex(blob)) }

  lemma PullLayerOkIff(codec: Codec, s: Store, image: string, layer: Layer)
    requires CollisionFree(codec) && PlainHashes(codec) && Sane(codec, s) && OrdinaryLayer(codec, NameOf(layer.digest))
    ensures PullLayer(codec, s, image, layer).ok <==>
      (NameOf(layer.digest) in s.blobs || Downloads(codec, layer)) && Extracts(codec, layer)
  {
    hide OpsOf, Reports, Endures, WellFormed, Leftover, PullBlob, Downloads;
    var name := NameOf(layer.digest);
    var got := PullBlob(codec, s.blobs, layer.digest, layer.fetch);
    FetchIff(codec, s.blobs, layer);
    if got.ok {
      PulledBlobIsRight(codec, s.blobs, layer.digest, layer.fetch);
      var blob := got.files[name];
      FetchedIsSane(codec, s, layer);
      ReadsThatBlob(codec, layer, blob);
      var fetched, dir := s.(blobs := got.files), LayerPath(image, name);
      assert TreeIsLeftover(codec, fetched, dir);
      ReportsIff(OpsOf(codec, blob), TreeAt(fetched, dir), layer.attempt);
    }
  }

  lemma FetchIff(codec: Codec, files: map<string, Bytes>, layer: Layer)
    ensures PullBlob(codec, files, layer.digest, layer.fetch).ok <==>
      NameOf(layer.digest) in files || Downloads(codec, layer)
  {
    PullBlobOkIff(codec, files, layer.digest, layer.fetch);
  }

  lemma ReadsThatBlob(codec: Codec, layer: Layer, blob: Bytes)
    requires CollisionFree(codec) && PlainHashes(codec) && codec.hex(blob) == NameOf(layer.digest)
    ensures Extracts(codec, layer) <==> codec.untar(blob).clean && Endures(OpsOf(codec, blob), layer.attempt)
  {
    hide Endures, OpsOf;
    forall b: Bytes
      ensures "sha256:" + codec.hex(b) == layer.digest || codec.hex(b) == layer.digest <==> b == blob
    {
      NamedIff(layer.digest, codec.hex(b));
    }
  }

  // ---- the loop, and the pull

  /** Among the blobs from the start, or an earlier layer of the same pull. */
  predicate Cached(blobs: map<string, Bytes>, layers: seq<Layer>, i: nat)
    requires i < |layers|
  {
    NameOf(layers[i].digest) in blobs || exists j :: 0 <= j < i && NameOf(layers[j].digest) == NameOf(layers[i].digest)
  }

  ghost predicate Goes(codec: Codec, blobs: map<string, Bytes>, layers: seq<Layer>, i: nat)
    requires i < |layers|
  {
    (Cached(blobs, layers, i) || Downloads(codec, layers[i])) && Extracts(codec, layers[i])
  }

  lemma LayerBlobs(codec: Codec, s: Store, image: string, layer: Layer, name: string)
    requires Integrity(codec, s.blobs) && PullLayer(codec, s, image, layer).ok && !IsPart(name)
    requires !IsPart(NameOf(layer.digest))
    ensures name in PullLayer(codec, s, image, layer).store.blobs <==> name in s.blobs || name == NameOf(layer.digest)
  {
    PartIsPart(NameOf(layer.digest));
  }

  ghost predicate AllGo(codec: Codec, blobs: map<string, Bytes>, layers: seq<Layer>, n: nat)
    requires n <= |layers|
  {
    forall i :: 0 <= i < n ==> Goes(codec, blobs, layers, i)
  }

  lemma AllGoNext(codec: Codec, blobs: map<string, Bytes>, layers: seq<Layer>, n: nat)
    requires 0 < n <= |layers|
    ensures AllGo(codec, blobs, layers, n) <==> AllGo(codec, blobs, layers, n - 1) && Goes(codec, blobs, layers, n - 1)
  {
    hide Goes;
  }

  /** Exactly the blobs of the first n layers were added. */
  ghost predicate Gathered(blobs: map<string, Bytes>, now: map<string, Bytes>, layers: seq<Layer>, n: nat)
    requires n <= |layers|
  {
    forall name :: !IsPart(name) ==>
      (name in now <==> name in blobs || exists j :: 0 <= j < n && NameOf(layers[j].digest) == name)
  }

  lemma GatheredNext(codec: Codec, start: map<string, Bytes>, s: Store, image: string, layers: seq<Layer>, n: nat)
    requires 0 < n <= |layers| && Integrity(codec, s.blobs) && !IsPart(NameOf(layers[n - 1].digest))
    requires Gathered(start, s.blobs, layers, n - 1) && PullLayer(codec, s, image, layers[n - 1]).ok
    ensures Gathered(start, PullLayer(codec, s, image, layers[n - 1]).store.blobs, layers, n)
  {
    hide PullLayer, IsPart, NameOf;
    forall name | !IsPart(name)
      ensures name in PullLayer(codec, s, image, layers[n - 1]).store.blobs <==>
        name in start || exists j :: 0 <= j < n && NameOf(layers[j].digest) == name
    {
      LayerBlobs(codec, s, image, layers[n - 1], name);
      if name == NameOf(layers[n - 1].digest) {
        assert exists j :: 0 <= j < n && NameOf(layers[j].digest) == name;
      }
    }
  }

  lemma CachedNow(start: map<string, Bytes>, now: map<string, Bytes>, layers: seq<Layer>, n: nat)
    requires n < |layers| && Gathered(start, now, layers, n) && !IsPart(NameOf(layers[n].digest))
    ensures NameOf(layers[n].digest) in now <==> Cached(start, layers, n)
  {
  }

  lemma {:induction false} LayersGoIff(codec: Codec, s: Store, image: string, layers: seq<Layer>, n: nat)
    requires CollisionFree(codec) && PlainHashes(codec) && Sane(codec, s) && OrdinaryLayers(codec, layers) &&
      n <= |layers|
    ensures PullLayers(codec, s, image, layers, n).ok <==> AllGo(codec, s.blobs, layers, n)
    ensures PullLayers(codec, s, image, layers, n).ok ==>
      Gathered(s.blobs, PullLayers(codec, s, image, layers, n).store.blobs, layers, n)
  {
    hide PullLayer, Extracts, Downloads, PlainHashes, AllGo, Gathered, Cached, IsPart;
    if n == 0 {
      NothingYet(codec, s.blobs, layers);
    } else {
      var before, layer := PullLayers(codec, s, image, layers, n - 1), layers[n - 1];
      LayersGoIff(codec, s, image, layers, n - 1);
      PullLayersKeep(codec, s, image, layers, n - 1);
      AllGoNext(codec, s.blobs, layers, n);
      assert OrdinaryLayer(codec, NameOf(layer.digest));
      if before.ok {
        PullLayerOkIff(codec, before.store, image, layer);
        CachedNow(s.blobs, before.store.blobs, layers, n - 1);
        if PullLayer(codec, before.store, image, layer).ok {
          GatheredNext(codec, s.blobs, before.store, image, layers, n);
        }
      }
    }
  }

  lemma NothingYet(codec: Codec, blobs: map<string, Bytes>, layers: seq<Layer>)
    ensures AllGo(codec, blobs, layers, 0) && Gathered(blobs, blobs, layers, 0)
  {
  }

  /**
   After any history a pull succeeds exactly if the registry answers with at least one
   layer, the manifest is written, and for each layer in turn its blob is cached or
   downloaded right and renamed, its archive ends cleanly, and no error that counts stops
   its extraction.
   */
  lemma {:induction false} PullSucceedsIff(codec: Codec, events: seq<Event>, image: string, pull: Pull)
    requires CollisionFree(codec) && PlainHashes(codec) && OrdinaryLayers(codec, pull.layers)
    ensures PullImage(codec, History(codec, events), image, pull).ok <==>
      && pull.answered && pull.layers != [] && pull.writing == Written
      && forall i :: 0 <= i < |pull.layers| ==> Goes(codec, History(codec, events).blobs, pull.layers, i)
  {
    hide Goes, PlainHashes, History;
    var s := History(codec, events);
    var manifest := Whole(Digests(pull.layers));
    HistoryIsSane(codec, events);
    ManifestKeeps(codec, s, image, manifest);
    LayersGoIff(codec, WithManifest(s, image, manifest), image, pull.layers, |pull.layers|);
  }

  // ---- layers of any kind

  lemma LayerIsClean(codec: Codec, s: Store, image: string, layer: Layer)
    requires Integrity(codec, s.blobs) && !IsPart(NameOf(layer.digest)) && PullLayer(codec, s, image, layer).ok
    ensures var blobs := PullLayer(codec, s, image, layer).store.blobs;
            NameOf(layer.digest) in blobs && codec.untar(blobs[NameOf(layer.digest)]).clean
    ensures forall name :: name in s.blobs && !IsPart(name) ==>
      name in PullLayer(codec, s, image, layer).store.blobs &&
        PullLayer(codec, s, image, layer).store.blobs[name] == s.blobs[name]
    ensures Integrity(codec, PullLayer(codec, s, image, layer).store.blobs)
  {
    PullBlobKeeps(codec, s.blobs, layer.digest, layer.fetch);
  }

  lemma {:induction false} LayersAreClean(codec: Codec, s: Store, image: string, layers: seq<Layer>, n: nat)
    requires Integrity(codec, s.blobs) && n <= |layers| && forall i :: 0 <= i < |layers| ==>
      !IsPart(NameOf(layers[i].digest))
    requires PullLayers(codec, s, image, layers, n).ok
    ensures Integrity(codec, PullLayers(codec, s, image, layers, n).store.blobs)
    ensures forall i :: 0 <= i < n ==>
      var blobs := PullLayers(codec, s, image, layers, n).store.blobs;
      NameOf(layers[i].digest) in blobs && codec.untar(blobs[NameOf(layers[i].digest)]).clean
  {
    hide PullLayer, Integrity, IsPart;
    if n > 0 {
      LayersAreClean(codec, s, image, layers, n - 1);
      LayerIsClean(codec, PullLayers(codec, s, image, layers, n - 1).store, image, layers[n - 1]);
    }
  }

  /** A pull that succeeds has read every archive of its manifest to a clean end, whatever the layers hold. */
  lemma {:induction false} PulledIsClean(codec: Codec, events: seq<Event>, image: string, pull: Pull)
    requires CollisionFree(codec) && forall i :: 0 <= i < |pull.layers| ==> !IsPart(NameOf(pull.layers[i].digest))
    requires PullImage(codec, History(codec, events), image, pull).ok
    ensures forall i :: 0 <= i < |pull.layers| ==>
      var blobs, name := PullImage(codec, History(codec, events), image, pull).store.blobs,
        NameOf(pull.layers[i].digest);
      name in blobs && codec.hex(blobs[name]) == name && codec.untar(blobs[name]).clean
  {
    hide IsPart, PullLayer, History;
    var s := History(codec, events);
    HistoryIsSane(codec, events);
    LayersAreClean(codec, WithManifest(s, image, Whole(Digests(pull.layers))), image, pull.layers, |pull.layers|);
  }
}
