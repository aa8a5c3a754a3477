/**
 The disk half of the file protocol (`FileStorage`): pending objects under a key and a claim, final
 objects under a key. Any filesystem call may raise; `if *` stands for its decision to do so.
 */
module FileStorage {
  import opened Outcomes

  type Claim = nat
  type Blob = seq<nat>

  /** A storage key; `wellFormed` says that it matches the key pattern and stays under the root. */
  datatype Key = Key(organization: nat, object: nat, wellFormed: bool)

  datatype Path = Pending(key: Key, claim: Claim) | Final(key: Key)

  type Disk = map<Path, Blob>

  datatype Error = NotFound | TooLarge | Io

  /** How a write ended: before the path was opened, stored, or failed and then removed or not. */
  datatype Fate = Unopened | Kept | Cleaned | LeftBehind

  function Concat(chunks: seq<Blob>): Blob {
    if chunks == [] then [] else Concat(chunks[..|chunks| - 1]) + chunks[|chunks| - 1]
  }

  /** `rename` of a pending object over the final one. */
  function Renamed(disk: Disk, key: Key, claim: Claim): (d: Disk)
    requires Pending(key, claim) in disk
  {
    (disk - {Pending(key, claim)})[Final(key) := disk[Pending(key, claim)]]
  }

  /** Where `putStream` writes: under its claim when it has one, else directly under the key. */
  function WritePath(key: Key, claim: Option<Claim>): Path {
    match claim
    case Some(c) => Pending(key, c)
    case None => Final(key)
  }

  class FileStorage {
    const maximumBytes: nat
    var disk: Disk

    constructor (maximumBytes: nat)
      ensures disk == map[] && this.maximumBytes == maximumBytes
    {
      this.maximumBytes := maximumBytes;
      disk := map[];
    }

    /** `rm(path, { force: true })`: an absent path is not an error. */
    method Rm(path: Path) returns (o: Outcome<Error>)
      modifies this`disk
      ensures o.Done? ==> disk == old(disk) - {path}
      ensures o.Raised? ==> disk == old(disk)
    {
      if * {
        return Raised(Io);
      }
      disk := disk - {path};
      return Done;
    }

    /**
     `putStream`: an exclusive create, then the chunks one by one under the size limit; any failure from
     the opening on removes the path again, if removing succeeds. It succeeds only on an absent path, and
     then stores all the chunks. On a path that exists it fails, and the object that was there is gone
     exactly when the path was to be opened and removing succeeded.
     */
    method PutStream(organization: nat, chunks: seq<Blob>, storageKey: Option<Key>, claim: Option<Claim>, created: Key)
      returns (r: Result<Key, Error>, fate: Fate)
      modifies this`disk
      ensures var key := if storageKey.Some? then storageKey.value else created;
              var path := WritePath(key, claim);
              && (r.Ok? <==> fate == Kept)
              && (!(key.wellFormed && key.organization == organization && storageKey.Some? == claim.Some?) ==>
                  fate == Unopened)
              && match fate
                 case Unopened => disk == old(disk)
                 case Kept =>
                   && path !in old(disk) && |Concat(chunks)| <= maximumBytes
                   && r.value == key && disk == old(disk)[path := Concat(chunks)]
                 case Cleaned => disk == old(disk) - {path}
                 case LeftBehind =>
                   || disk == old(disk)
                   || (path !in old(disk) && path in disk && disk[path] <= Concat(chunks)
                       && disk == old(disk)[path := disk[path]])
      ensures var path := WritePath(if storageKey.Some? then storageKey.value else created, claim);
              path in old(disk) ==> r.Err? && (path !in disk <==> fate == Cleaned)
    {
      var key := if storageKey.Some? then storageKey.value else created;
      if !key.wellFormed || key.organization != organization || storageKey.Some? != claim.Some? {
        return Err(NotFound), Unopened;
      }
      var path := WritePath(key, claim);
      if * {
        return Err(Io), Unopened;
      }
      var error: Option<Error> := None;
      var denied: bool := *;
      if path in disk || denied {
        error := Some(Io);
      } else {
        disk := disk[path := []];
        var writtenBytes, i := 0, 0;
        while i < |chunks| && error.None?
          invariant 0 <= i <= |chunks|
          invariant path !in old(disk) && path in disk && disk == old(disk)[path := Concat(chunks[..i])]
          invariant error.None? ==> writtenBytes == |Concat(chunks[..i])| <= maximumBytes
          decreases |chunks| - i, error.None?
        {
          writtenBytes := writtenBytes + |chunks[i]|;
          if writtenBytes > maximumBytes {
            error := Some(TooLarge);
          } else {
            assert chunks[..i + 1][..i] == chunks[..i];
            disk := disk[path := disk[path] + chunks[i]];
            i := i + 1;
            if * {
              error := Some(Io);
            }
          }
        }
        ConcatPrefix(chunks, i);
        assert chunks[..|chunks|] == chunks;
      }
      if error.Some? {
        var o := Rm(path);
        return Err(error.value), if o.Done? then Cleaned else LeftBehind;
      }
      return Ok(key), Kept;
    }

    method PublishPending(key: Key, claim: Claim) returns (o: Outcome<Error>)
      modifies this`disk
      ensures o.Done? ==> key.wellFormed && Pending(key, claim) in old(disk) && disk == Renamed(old(disk), key, claim)
      ensures o.Raised? ==> disk == old(disk)
    {
      if !key.wellFormed {
        return Raised(NotFound);
      }
      if * {
        return Raised(Io);
      }
      if Pending(key, claim) !in disk {
        return Raised(Io);
      }
      var content := disk[Pending(key, claim)];
      disk := disk - {Pending(key, claim)};
      disk := disk[Final(key) := content];
      return Done;
    }

    method RemovePending(key: Key, claim: Claim) returns (o: Outcome<Error>)
      modifies this`disk
      ensures o.Done? ==> key.wellFormed && disk == old(disk) - {Pending(key, claim)}
      ensures o.Raised? ==> disk == old(disk)
    {
      if !key.wellFormed {
        return Raised(NotFound);
      }
      o := Rm(Pending(key, claim));
    }

    method Remove(key: Key) returns (o: Outcome<Error>)
      modifies this`disk
      ensures o.Done? ==> disk == if key.wellFormed then old(disk) - {Final(key)} else old(disk)
      ensures o.Raised? ==> disk == old(disk)
    {
      if !key.wellFormed {
        return Done;
      }
      o := Rm(Final(key));
    }
  }

  /** A disk that changed only at one path, which was free, is the old one with that path written. */
  lemma ChangedOnlyAt(before: Disk, after: Disk, path: Path)
    requires after - {path} == before - {path} && path !in before
    ensures after == if path in after then before[path := after[path]] else before
  {
    assert before - {path} == before;
    forall p | p != path
      ensures p in after <==> p in before
      ensures p in after ==> after[p] == before[p]
    {
      assert p in after <==> p in after - {path};
      assert p in before <==> p in before - {path};
    }
  }

  lemma {:induction false} ConcatPrefix(chunks: seq<Blob>, n: nat)
    requires n <= |chunks|
    ensures Concat(chunks[..n]) <= Concat(chunks)
    decreases |chunks|
  {
    if n < |chunks| {
      assert chunks[..|chunks| - 1][..n] == chunks[..n];
      ConcatPrefix(chunks[..|chunks| - 1], n);
    } else {
      assert chunks[..n] == chunks;
    }
  }
}
