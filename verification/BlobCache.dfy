// The blob cache: downloads go to a ".part" file, are checked against their digest and
// only then renamed into place.

module BlobCache {
  import opened Strings
  import opened LayerOps

  /** A layer tarball's entries, and whether it can be read to its end. */
  datatype Archive = Archive(headers: seq<Header>, clean: bool)

  /** SHA-256 in hex, and gunzip with untar: both only named here. */
  datatype Codec = Codec(hex: Bytes -> string, untar: Bytes -> Archive)

  const ALGORITHM := "sha256:"
  const PART := ".part"

  predicate IsPart(name: string) { |name| >= |PART| && name[|name| - |PART|..] == PART }

  function NameOf(digest: string): string { TrimPrefix(digest, ALGORITHM) }

  /** No two contents share a hash, and no hash looks like a temporary name. */
  ghost predicate CollisionFree(codec: Codec) {
    && (forall a: Bytes, b: Bytes :: codec.hex(a) == codec.hex(b) ==> a == b)
    && (forall a: Bytes :: !IsPart(codec.hex(a)))
  }

  /** What the registry, the disk and the machine do during one download. */
  datatype Fetch =
    | Refused                               // no answer, a status other than 200, or the file cannot be created
    | Broken(body: Bytes, removed: bool)    // copy or close fails; removing the partial file may fail too
    | Died(body: Bytes)                     // the process ends while this much is in the partial file
    | Served(body: Bytes, renamed: bool, removed: bool)

  datatype Blobs = Blobs(files: map<string, Bytes>, ok: bool)

  function Dropped(files: map<string, Bytes>, tmp: string, body: Bytes, removed: bool): map<string, Bytes> {
    if removed then files - {tmp} else files[tmp := body]
  }

  function PullBlob(codec: Codec, files: map<string, Bytes>, digest: string, fetch: Fetch): Blobs {
    var name := NameOf(digest);
    var tmp := name + PART;
    if name in files then Blobs(files, true)
    else
      match fetch
      case Refused => Blobs(files, false)
      case Broken(body, removed) => Blobs(Dropped(files, tmp, body, removed), false)
      case Died(body) => Blobs(files[tmp := body], false)
      case Served(body, renamed, removed) =>
        if ALGORITHM + codec.hex(body) != digest then Blobs(Dropped(files, tmp, body, removed), false)
        else if renamed then Blobs((files - {tmp})[name := body], true)
        else Blobs(files[tmp := body], false)
  }

  /** Every file that is not a temporary one is named by its own hash. */
  ghost predicate Integrity(codec: Codec, files: map<string, Bytes>) {
    forall name :: name in files && !IsPart(name) ==> codec.hex(files[name]) == name
  }

  lemma PartIsPart(name: string)
    ensures IsPart(name + PART)
  {
    assert (name + PART)[|name + PART| - |PART|..] == PART;
  }

  lemma DigestNamesHash(digest: string, hash: string)
    ensures ALGORITHM + hash == digest ==> NameOf(digest) == hash
    ensures ALGORITHM + hash == digest ==> ALGORITHM <= digest
  {
    if ALGORITHM + hash == digest {
      assert digest[|ALGORITHM|..] == hash;
      assert digest[..|ALGORITHM|] == ALGORITHM;
    }
  }

  /** Whatever happens during a pull, the cache keeps its integrity and loses or changes no blob. */
  lemma {:induction false} PullBlobKeeps(codec: Codec, files: map<string, Bytes>, digest: string, fetch: Fetch)
    requires Integrity(codec, files)
    ensures Integrity(codec, PullBlob(codec, files, digest, fetch).files)
    ensures forall name :: name in files && !IsPart(name) ==>
      name in PullBlob(codec, files, digest, fetch).files &&
        PullBlob(codec, files, digest, fetch).files[name] == files[name]
  {
    PartIsPart(NameOf(digest));
    if fetch.Served? {
      DigestNamesHash(digest, codec.hex(fetch.body));
    }
  }

  /** A pull that succeeds leaves a file of the right hash at the blob's path. */
  lemma {:induction false} PulledBlobIsRight(codec: Codec, files: map<string, Bytes>, digest: string, fetch: Fetch)
    requires Integrity(codec, files) && !IsPart(NameOf(digest))
    requires PullBlob(codec, files, digest, fetch).ok
    ensures NameOf(digest) in PullBlob(codec, files, digest, fetch).files
    ensures codec.hex(PullBlob(codec, files, digest, fetch).files[NameOf(digest)]) == NameOf(digest)
  {
    PullBlobKeeps(codec, files, digest, fetch);
  }

  /** Exactly when a pull succeeds: from the cache, or by a download whose hash, with its algorithm, is the digest. */
  lemma {:induction false} PullBlobOkIff(codec: Codec, files: map<string, Bytes>, digest: string, fetch: Fetch)
    ensures PullBlob(codec, files, digest, fetch).ok <==>
      || NameOf(digest) in files
      || (fetch.Served? && fetch.renamed && digest == ALGORITHM + codec.hex(fetch.body))
    ensures PullBlob(codec, files, digest, fetch).ok && !(ALGORITHM <= digest) ==> NameOf(digest) in files
  {
    if fetch.Served? {
      DigestNamesHash(digest, codec.hex(fetch.body));
    }
  }

  datatype Request = Request(digest: string, fetch: Fetch)

  function PullBlobs(codec: Codec, files: map<string, Bytes>, requests: seq<Request>): map<string, Bytes> {
    if requests == [] then files
    else
      var before := PullBlobs(codec, files, requests[..|requests| - 1]);
      PullBlob(codec, before, requests[|requests| - 1].digest, requests[|requests| - 1].fetch).files
  }

  lemma {:induction false} CacheIntegrity(codec: Codec, requests: seq<Request>)
    ensures Integrity(codec, PullBlobs(codec, map[], requests))
  {
    if requests != [] {
      var last := requests[|requests| - 1];
      CacheIntegrity(codec, requests[..|requests| - 1]);
      PullBlobKeeps(codec, PullBlobs(codec, map[], requests[..|requests| - 1]), last.digest, last.fetch);
    }
  }

  /**
   Transparency: after any history, a successful pull gives the bytes that a successful
   pull into an empty cache would give.
   */
  lemma {:induction false} CacheIsTransparent(codec: Codec, requests: seq<Request>, digest: string, fetch: Fetch,
                                              direct: Fetch)
    requires CollisionFree(codec) && !IsPart(NameOf(digest))
    requires PullBlob(codec, PullBlobs(codec, map[], requests), digest, fetch).ok
    requires PullBlob(codec, map[], digest, direct).ok
    ensures PullBlob(codec, PullBlobs(codec, map[], requests), digest, fetch).files[NameOf(digest)]
         == PullBlob(codec, map[], digest, direct).files[NameOf(digest)]
  {
    CacheIntegrity(codec, requests);
    PulledBlobIsRight(codec, PullBlobs(codec, map[], requests), digest, fetch);
    PulledBlobIsRight(codec, map[], digest, direct);
  }

  /**
   What a successful pull serves, after any history: bytes that hash to the digest's name,
   exactly when that name does not end in ".part". Otherwise the file at that path is what
   an interrupted download of another blob left.
   */
  lemma {:induction false} ServedIsRightIff(codec: Codec, requests: seq<Request>, digest: string, fetch: Fetch)
    requires CollisionFree(codec)
    requires PullBlob(codec, PullBlobs(codec, map[], requests), digest, fetch).ok
    ensures var files := PullBlob(codec, PullBlobs(codec, map[], requests), digest, fetch).files;
            NameOf(digest) in files && (codec.hex(files[NameOf(digest)]) == NameOf(digest) <==> !IsPart(NameOf(digest)))
  {
    var before := PullBlobs(codec, map[], requests);
    CacheIntegrity(codec, requests);
    PullBlobOkIff(codec, before, digest, fetch);
    if IsPart(NameOf(digest)) {
      if fetch.Served? {
        DigestNamesHash(digest, codec.hex(fetch.body));
      }
    } else {
      PulledBlobIsRight(codec, before, digest, fetch);
    }
  }

  /** The download ends with its bytes under the temporary name. */
  predicate LeavesPart(codec: Codec, name: string, fetch: Fetch, body: Bytes) {
    || fetch == Died(body)
    || fetch == Broken(body, false)
    || (fetch.Served? && fetch.body == body && (if codec.hex(body) == name then !fetch.renamed else !fetch.removed))
  }

  /** What such a download leaves is served to a digest of the temporary name. */
  lemma {:induction false} PartFileServed(codec: Codec, files: map<string, Bytes>, name: string, body: Bytes,
                                          first: Fetch, fetch: Fetch)
    requires name !in files && LeavesPart(codec, name, first, body)
    ensures var ended := PullBlob(codec, files, "sha256:" + name, first);
            var again := PullBlob(codec, ended.files, "sha256:" + name + ".part", fetch);
            && !ended.ok
            && again.ok && name + ".part" in again.files && again.files[name + ".part"] == body
  {
    DigestNamesHash("sha256:" + name, name);
    assert "sha256:" + name + ".part" == "sha256:" + (name + ".part");
    DigestNamesHash("sha256:" + (name + ".part"), name + ".part");
    if first.Served? {
      SameHash(codec.hex(body), name);
    }
  }

  lemma SameHash(a: string, b: string)
    ensures "sha256:" + a == "sha256:" + b <==> a == b
  {
    assert ("sha256:" + a)[7..] == a && ("sha256:" + b)[7..] == b;
  }

  /**
   A download that fails in an orderly way, or is refused, leaves no trace of itself: the
   cache is as it would be without it.
   */
  lemma {:induction false} OrderlyFailureLeavesNothing(codec: Codec, files: map<string, Bytes>, digest: string,
                                                       fetch: Fetch)
    requires NameOf(digest) !in files && NameOf(digest) + ".part" !in files
    requires match fetch
             case Refused => true
             case Broken(_, removed) => removed
             case Died(_) => false
             case Served(body, _, removed) => removed && "sha256:" + codec.hex(body) != digest
    ensures PullBlob(codec, files, digest, fetch) == Blobs(files, false)
  {
    assert files - {NameOf(digest) + ".part"} == files;
  }
}
