/**
 * The local storage backend (src/storage/local.ts, src/storage/limit.ts): a directory as a map
 * from artefacts to their bytes and modification time.
 */
module Storage {
  import opened Common

  /** A directory entry: an object, its tus sidecar, or a file this application did not create. */
  datatype Artefact = Data(id: nat) | Sidecar(id: nat) | Other(name: string)

  datatype Blob = Blob(content: seq<byte>, mtime: nat)

  type Store = map<Artefact, Blob>

  /** Whether the orphan sweep recognises the entry's name as one of the application's own. */
  predicate Recognised(a: Artefact) {
    !a.Other?
  }

  /** `storage.delete`: the object and its sidecar. */
  function Without(store: Store, id: nat): Store {
    store - {Data(id), Sidecar(id)}
  }

  /** What the orphan sweep may remove: recognised, not live, last written at or before the cutoff. */
  predicate Orphan(store: Store, live: set<nat>, cutoff: int, a: Artefact) {
    a in store && Recognised(a) && a.id !in live && store[a].mtime <= cutoff
  }

  function Orphans(store: Store, live: set<nat>, cutoff: int): set<Artefact> {
    set a | a in store && Orphan(store, live, cutoff, a)
  }

  function Flat(chunks: seq<seq<byte>>): seq<byte> {
    if chunks == [] then [] else Flat(chunks[..|chunks| - 1]) + chunks[|chunks| - 1]
  }

  /** Bytes seen so far never shrink, so a prefix over the limit decides. */
  lemma {:induction false} FlatPrefix(chunks: seq<seq<byte>>, n: nat)
    requires n <= |chunks|
    ensures |Flat(chunks[..n])| <= |Flat(chunks)|
    decreases |chunks|
  {
    if n < |chunks| {
      assert chunks[..|chunks| - 1][..n] == chunks[..n];
      FlatPrefix(chunks[..|chunks| - 1], n);
    } else {
      assert chunks[..n] == chunks;
    }
  }

  /** Counts and hashes what passes through, and fails once the count exceeds `maxBytes`. */
  class LimitHashStream {
    const maxBytes: nat
    var size: nat
    var hashed: seq<byte>

    constructor (maxBytes: nat)
      ensures this.maxBytes == maxBytes && size == 0 && hashed == []
    {
      this.maxBytes := maxBytes;
      size, hashed := 0, [];
    }

    method Transform(chunk: seq<byte>) returns (passed: bool)
      modifies this
      ensures size == old(size) + |chunk|
      ensures passed <==> size <= maxBytes
      ensures hashed == if passed then old(hashed) + chunk else old(hashed)
    {
      size := size + |chunk|;
      if size > maxBytes {
        return false;
      }
      hashed := hashed + chunk;
      return true;
    }
  }

  datatype PutResult = PutResult(size: nat, sha256: string)

  datatype PutError = AlreadyExists | LimitExceeded | SourceBroken

  /** What storing `source` under a key amounts to; `broken` says the source fails after its last chunk. */
  function PutOutcome(taken: bool, source: seq<seq<byte>>, broken: bool, maxBytes: nat, sha256: seq<byte> -> string)
    : Result<PutResult, PutError>
  {
    if taken then Err(AlreadyExists)
    else if |Flat(source)| > maxBytes then Err(LimitExceeded)
    else if broken then Err(SourceBroken)
    else Ok(PutResult(|Flat(source)|, sha256(Flat(source))))
  }

  class Directory {
    var entries: Store

    constructor ()
      ensures entries == map[]
    {
      entries := map[];
    }

    /**
     * Streams the source into a new object. On any failure the object is removed - also one that
     * was there before, since the removal does not look at the reason.
     */
    method Put(id: nat, source: seq<seq<byte>>, broken: bool, maxBytes: nat, now: nat, sha256: seq<byte> -> string)
      returns (r: Result<PutResult, PutError>)
      modifies this
      ensures r == PutOutcome(Data(id) in old(entries), source, broken, maxBytes, sha256)
      ensures entries == if r.Ok? then old(entries)[Data(id) := Blob(Flat(source), now)] else old(entries) - {Data(id)}
    {
      if Data(id) in entries {
        entries := entries - {Data(id)};
        return Err(AlreadyExists);
      }
      var limiter := new LimitHashStream(maxBytes);
      entries := entries[Data(id) := Blob([], now)];
      var i := 0;
      while i < |source|
        invariant 0 <= i <= |source|
        invariant limiter.maxBytes == maxBytes
        invariant limiter.hashed == Flat(source[..i])
        invariant limiter.size == |Flat(source[..i])| <= maxBytes
        invariant entries == old(entries)[Data(id) := Blob(Flat(source[..i]), now)]
        modifies this`entries, limiter
      {
        assert source[..i + 1][..i] == source[..i];
        var passed := limiter.Transform(source[i]);
        if !passed {
          FlatPrefix(source, i + 1);
          entries := entries - {Data(id)};
          return Err(LimitExceeded);
        }
        entries := entries[Data(id) := Blob(limiter.hashed, now)];
        i := i + 1;
      }
      assert source[..i] == source;
      if broken {
        entries := entries - {Data(id)};
        return Err(SourceBroken);
      }
      return Ok(PutResult(limiter.size, sha256(limiter.hashed)));
    }

    /** `stat(key) === null` is the answer `false`; a storage error is left out. */
    method Stat(id: nat) returns (present: bool)
      ensures present <==> Data(id) in entries
    {
      present := Data(id) in entries;
    }

    method Delete(id: nat)
      modifies this
      ensures entries == Without(old(entries), id)
    {
      entries := entries - {Data(id)};
      entries := entries - {Sidecar(id)};
    }

    /** Removes exactly the orphans and counts them; every other entry stays as it was. */
    method CleanupOrphans(live: set<nat>, now: nat, olderThan: nat) returns (removed: nat)
      modifies this
      ensures removed == |Orphans(old(entries), live, now - olderThan)|
      ensures entries == old(entries) - Orphans(old(entries), live, now - olderThan)
    {
      var cutoff := now - olderThan;
      ghost var before := entries;
      ghost var orphans := Orphans(before, live, cutoff);
      ghost var gone: set<Artefact> := {};
      removed := 0;
      var todo := entries.Keys;
      while todo != {}
        invariant todo <= before.Keys && todo !! gone
        invariant gone <= orphans <= gone + todo
        invariant entries == before - gone
        invariant removed == |gone|
        decreases todo
      {
        var a :| a in todo;
        assert a in entries && entries[a] == before[a];
        if Recognised(a) && a.id !in live && entries[a].mtime <= cutoff {
          assert before - (gone + {a}) == before - gone - {a};
          gone := gone + {a};
          entries := entries - {a};
          removed := removed + 1;
        }
        todo := todo - {a};
      }
      assert gone == orphans;
    }
  }
}
