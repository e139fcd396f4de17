// The store on disk as the pull changes it: blobs, manifests and layer trees, step by step.

module LocalStore {
  import opened LayerOps
  import opened LayerTree
  import opened LinkedTree
  import opened LinkFree
  import opened ExtractResume
  import opened LayerDir
  import opened BlobCache
  import opened ImageStore

  lemma {:induction false} PlannedMarkers(headers: seq<Header>, i: nat)
    requires i < |headers|
    ensures PlanAll(headers)[i].Whiteout? ==> PlanAll(headers)[i].p != []
  {
    PlanAt(headers, i);
  }

  lemma {:induction false} RunTree(fs: Fs, headers: seq<Header>, n: nat)
    requires Tree(fs) && n <= |headers|
    ensures Tree(Run(fs, PlanAll(headers), n).fs)
  {
    if n > 0 {
      RunTree(fs, headers, n - 1);
      PlannedMarkers(headers, n - 1);
      ApplyTree(Run(fs, PlanAll(headers), n - 1).fs, PlanAll(headers)[n - 1]);
    }
  }

  lemma {:induction false} LimpTree(fs: Fs, headers: seq<Header>, course: seq<Go>, n: nat)
    requires Tree(fs) && n <= |headers| && n <= |course|
    ensures Tree(Limp(fs, PlanAll(headers), course, n))
  {
    if n > 0 {
      LimpTree(fs, headers, course, n - 1);
      var before, op := Limp(fs, PlanAll(headers), course, n - 1), PlanAll(headers)[n - 1];
      PlannedMarkers(headers, n - 1);
      match course[n - 1]
      case Through => ApplyTree(before, op);
      case Cut(tear) => TornTree(before, op, tear);
    }
  }

  lemma TryTree(fs: Fs, headers: seq<Header>, attempt: Attempt)
    requires Tree(fs)
    ensures Tree(Try(fs, PlanAll(headers), attempt))
  {
    match attempt
    case Complete => RunTree(fs, headers, |headers|);
    case Stopped(course) => LimpTree(fs, headers, course, if |course| <= |headers| then |course| else |headers|);
    case Limping(course) => LimpTree(fs, headers, course, if |course| <= |headers| then |course| else |headers|);
  }

  class Disk {
    var blobs: map<string, Bytes>
    var manifests: map<string, Manifest>
    var trees: map<LayerPath, Fs>

    function Contents(): Store
      reads this
    {
      Store(blobs, manifests, trees)
    }

    ghost predicate Valid()
      reads this
    {
      forall dir :: dir in trees ==> Tree(trees[dir])
    }

    constructor ()
      ensures Valid() && Contents() == NOTHING
    {
      blobs, manifests, trees := map[], map[], map[];
    }

    /** The partial file is removed, unless the removal fails. */
    method Discard(tmp: string, removed: bool)
      modifies this`blobs
      ensures blobs == if removed then old(blobs) - {tmp} else old(blobs)
    {
      if removed {
        blobs := blobs - {tmp};
      }
    }

    /** pullBlob: create, copy, compare, rename. */
    method FetchBlob(codec: Codec, digest: string, fetch: Fetch) returns (ok: bool)
      modifies this`blobs
      ensures Blobs(blobs, ok) == PullBlob(codec, old(blobs), digest, fetch)
    {
      var name := NameOf(digest);
      if name in blobs {
        return true;
      }
      if fetch.Refused? {
        return false;
      }
      var tmp := name + PART;
      blobs := blobs[tmp := []];
      blobs := blobs[tmp := fetch.body];
      assert old(blobs)[tmp := []][tmp := fetch.body] == old(blobs)[tmp := fetch.body];
      assert old(blobs)[tmp := fetch.body] - {tmp} == old(blobs) - {tmp};
      match fetch
      case Died(_) => return false;
      case Broken(_, removed) =>
        Discard(tmp, removed);
        return false;
      case Served(body, renamed, removed) =>
        if ALGORITHM + codec.hex(body) != digest {
          Discard(tmp, removed);
          return false;
        }
        if !renamed {
          return false;
        }
        blobs := (blobs - {tmp})[name := body];
        return true;
    }

    /** A directory's tree, worked on in place until the archive ends or an entry fails. */
    method ExtractFully(dir: LayerPath, headers: seq<Header>, clean: bool) returns (ok: bool)
      requires Valid()
      modifies this`trees
      ensures Valid()
      ensures trees == old(trees)[dir := Run(TreeAt(old(Contents()), dir), PlanAll(headers), |headers|).fs]
      ensures ok == (Run(TreeAt(old(Contents()), dir), PlanAll(headers), |headers|).ok && clean)
    {
      var directory := new Directory(if dir in trees then trees[dir] else EMPTY);
      ok := directory.ExtractLayer(headers, clean);
      trees := trees[dir := directory.Contents()];
    }

    /** extractLayer over whatever the layer's directory holds. */
    method ExtractInto(codec: Codec, dir: LayerPath, blob: Bytes, attempt: Attempt) returns (ok: bool)
      requires Valid()
      modifies this`trees
      ensures Valid()
      ensures Pulled(Contents(), ok) == Extract(codec, old(Contents()), dir, blob, attempt)
    {
      var archive := codec.untar(blob);
      if attempt.Complete? {
        ok := ExtractFully(dir, archive.headers, archive.clean);
      } else {
        var start := if dir in trees then trees[dir] else EMPTY;
        TryTree(start, archive.headers, attempt);
        ok := Reports(start, PlanAll(archive.headers), attempt) && archive.clean;
        trees := trees[dir := Try(start, PlanAll(archive.headers), attempt)];
      }
    }

    /** The loop body of Pull. */
    method FetchLayer(codec: Codec, image: string, layer: Layer) returns (ok: bool)
      requires Valid()
      modifies this
      ensures Valid()
      ensures Pulled(Contents(), ok) == PullLayer(codec, old(Contents()), image, layer)
    {
      ok := FetchBlob(codec, layer.digest, layer.fetch);
      var name := NameOf(layer.digest);
      if ok && name in blobs {
        ok := ExtractInto(codec, LayerPath(image, name), blobs[name], layer.attempt);
      } else {
        ok := false;
      }
    }

    /** One round of Pull's loop: the disk follows the fold over the layers. */
    method FetchNth(codec: Codec, image: string, layers: seq<Layer>, i: nat, ghost start: Store) returns (ok: bool)
      requires Valid() && i < |layers|
      requires PullLayers(codec, start, image, layers, i) == Pulled(Contents(), true)
      modifies this
      ensures Valid()
      ensures PullLayers(codec, start, image, layers, i + 1) == Pulled(Contents(), ok)
    {
      ok := FetchLayer(codec, image, layers[i]);
    }

    method FetchLayers(codec: Codec, image: string, layers: seq<Layer>) returns (ok: bool)
      requires Valid()
      modifies this
      ensures Valid()
      ensures Pulled(Contents(), ok) == PullLayers(codec, old(Contents()), image, layers, |layers|)
    {
      hide PullLayer;
      var i := 0;
      while i < |layers|
        invariant i <= |layers| && Valid()
        invariant PullLayers(codec, old(Contents()), image, layers, i) == Pulled(Contents(), true)
      {
        ok := FetchNth(codec, image, layers, i, old(Contents()));
        i := i + 1;
        if !ok {
          PullStopsThere(codec, old(Contents()), image, layers, i);
          return;
        }
      }
      ok := true;
    }

    /** Client.Pull: the manifest, then layer by layer. */
    method Pull(codec: Codec, image: string, pull: ImageStore.Pull) returns (ok: bool)
      requires Valid()
      modifies this
      ensures Valid()
      ensures Pulled(Contents(), ok) == PullImage(codec, old(Contents()), image, pull)
    {
      if !pull.answered || pull.layers == [] || pull.writing == NotWritten {
        return false;
      }
      if pull.writing == CutShort {
        manifests := manifests[image := Damaged];
        return false;
      }
      manifests := manifests[image := Whole(Digests(pull.layers))];
      ok := FetchLayers(codec, image, pull.layers);
    }

    /** LoadManifest: one directory per layer, in the manifest's order. */
    method Load(image: string) returns (loaded: Loaded)
      ensures loaded == LoadManifest(Contents(), image)
    {
      if image !in manifests || manifests[image].Damaged? {
        return NoImage;
      }
      var digests := manifests[image].digests;
      var dirs: seq<LayerPath> := [];
      for i := 0 to |digests|
        invariant |dirs| == i
        invariant forall k :: 0 <= k < i ==> dirs[k] == LayerPath(image, NameOf(digests[k]))
      {
        dirs := dirs + [LayerPath(image, NameOf(digests[i]))];
      }
      assert dirs == DirsOf(image, digests);
      loaded := Layers(dirs);
    }
  }

  lemma {:induction false} PullStopsThere(codec: Codec, s: Store, image: string, layers: seq<Layer>, n: nat)
    requires n <= |layers| && !PullLayers(codec, s, image, layers, n).ok
    ensures PullLayers(codec, s, image, layers, |layers|) == PullLayers(codec, s, image, layers, n)
    decreases |layers| - n
  {
    if n < |layers| {
      PullStopsThere(codec, s, image, layers, n + 1);
    }
  }
}
