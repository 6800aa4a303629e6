/** The runner's artifact store: pairs of a blob and its metadata that survive a crash at any point. */
module Artifacts {
  import opened Wire

  type Byte = b: int | 0 <= b < 256

  type Bytes = seq<Byte>

  /** The digest function, as lower-case hex; nothing is assumed of it. */
  type Digest = Bytes -> string

  /** The expiry is absent when it does not parse. */
  datatype Metadata = Metadata(artifactId: string, sha256: string, size: nat, expiresAt: Option<Time>)
  {
    predicate IsExpired(now: Time) { expiresAt.Some? && expiresAt.value <= now }
  }

  datatype MetadataFile = Garbled | Parsed(metadata: Metadata)

  datatype ArtifactDir = ArtifactDir(blob: Option<Bytes>, metadata: Option<MetadataFile>)

  type Dirs = map<string, ArtifactDir>

  datatype ArtifactError =
    | MissingChecksum | TooLarge | ChecksumMismatch | WriteFailure
    | InvalidArtifactId | NotFound | ParseMetadata | ParseExpiry

  predicate ValidId(id: string) {
    IsPrefixedHexId(id, "art_")
  }

  function Lower(c: char): char {
    if 'A' <= c <= 'Z' then c - 'A' + 'a' else c
  }

  predicate EqualIgnoringCase(a: string, b: string) {
    |a| == |b| && forall i :: 0 <= i < |a| ==> Lower(a[i]) == Lower(b[i])
  }

  /** A directory whose metadata is its own and describes its blob. */
  predicate Matches(sha: Digest, id: string, dir: ArtifactDir) {
    && dir.blob.Some? && dir.metadata.Some? && dir.metadata.value.Parsed?
    && var m := dir.metadata.value.metadata;
       m.artifactId == id && m.size == |dir.blob.value| && m.sha256 == sha(dir.blob.value)
  }

  /** The directories recovery leaves. */
  function Recovered(sha: Digest, dirs: Dirs): Dirs {
    map id | id in dirs && Matches(sha, id, dirs[id]) :: dirs[id]
  }

  function LoadMetadata(dirs: Dirs, id: string): Result<Metadata, ArtifactError> {
    if !ValidId(id) then Err(InvalidArtifactId)
    else if id !in dirs || dirs[id].metadata == None then Err(NotFound)
    else if dirs[id].metadata.value.Garbled? then Err(ParseMetadata)
    else Ok(dirs[id].metadata.value.metadata)
  }

  function Load(dirs: Dirs, id: string, now: Time): Result<(Metadata, Bytes), ArtifactError> {
    match LoadMetadata(dirs, id)
    case Err(e) => Err(e)
    case Ok(m) =>
      if m.expiresAt == None then Err(ParseExpiry)
      else if m.IsExpired(now) then Err(NotFound)
      else if dirs[id].blob == None then Err(NotFound)
      else Ok((m, dirs[id].blob.value))
  }

  /** An artifact loads exactly while it is there whole under a proper id, with metadata that reads and an
      expiry that parses and lies ahead; it loads as what is there. */
  lemma LoadsExactlyWhen(dirs: Dirs, id: string, now: Time)
    ensures
      var loaded := Load(dirs, id, now);
      && (loaded.Ok? <==>
            && ValidId(id) && id in dirs && dirs[id].blob.Some?
            && dirs[id].metadata.Some? && dirs[id].metadata.value.Parsed?
            && dirs[id].metadata.value.metadata.expiresAt.Some? && now < dirs[id].metadata.value.metadata.expiresAt.value)
      && (loaded.Ok? ==> loaded.value == (dirs[id].metadata.value.metadata, dirs[id].blob.value))
      && (loaded == Err(InvalidArtifactId) <==> !ValidId(id))
      && (loaded == Err(ParseMetadata) <==> ValidId(id) && id in dirs && dirs[id].metadata == Some(Garbled))
      && (loaded == Err(ParseExpiry) <==>
            && ValidId(id) && id in dirs && dirs[id].metadata.Some? && dirs[id].metadata.value.Parsed?
            && dirs[id].metadata.value.metadata.expiresAt == None)
      && (loaded.Err? ==>
            loaded.error == InvalidArtifactId || loaded.error == NotFound || loaded.error == ParseMetadata
            || loaded.error == ParseExpiry)
  {
    hide ValidId;
  }

  // ---------------------------------------------------------------------------------------------
  // The store

  /** How far writing an artifact gets before it fails or the process dies: nothing made, the directory
      made, the blob written, or the metadata written as well. Each file appears whole or not at all. */
  datatype Reach = Nothing | DirectoryMade | BlobWritten | Complete

  function DirAt(reach: Reach, bytes: Bytes, m: Metadata): ArtifactDir {
    ArtifactDir(if reach == BlobWritten || reach == Complete then Some(bytes) else None,
                if reach == Complete then Some(Parsed(m)) else None)
  }

  function MetadataOf(sha: Digest, id: string, bytes: Bytes, expiresAt: Time): Metadata {
    Metadata(id, sha(bytes), |bytes|, Some(expiresAt))
  }

  class ArtifactStore {
    const sha: Digest
    const ttl: nat
    const maxSize: nat
    const requireChecksum: bool
    var dirs: Dirs

    constructor (sha: Digest, ttl: nat, maxSize: nat, requireChecksum: bool, dirs: Dirs)
      ensures this.sha == sha && this.ttl == ttl && this.maxSize == maxSize && this.requireChecksum == requireChecksum
      ensures this.dirs == dirs
    {
      this.sha, this.ttl, this.maxSize, this.requireChecksum, this.dirs := sha, ttl, maxSize, requireChecksum, dirs;
    }

    /** `id` is the fresh id drawn for the artifact. Nothing is touched unless the upload passes its
        checks; the reply is positive only once both files are there. */
    method StoreBytes(bytes: Bytes, checksum: Option<string>, id: string, reach: Reach, now: Time)
      returns (r: Result<Metadata, ArtifactError>)
      requires id !in dirs
      modifies `dirs
      ensures
        var passes := (requireChecksum ==> checksum.Some?) && |bytes| <= maxSize
                      && (checksum.Some? ==> EqualIgnoringCase(checksum.value, sha(bytes)));
        && (r.Ok? <==> passes && reach == Complete)
        && (r.Ok? ==> r.value == MetadataOf(sha, id, bytes, now + ttl) && id in dirs && Matches(sha, id, dirs[id]))
        && dirs == (if passes && reach != Nothing
                    then old(dirs)[id := DirAt(reach, bytes, MetadataOf(sha, id, bytes, now + ttl))] else old(dirs))
      ensures r.Err? ==>
                match r.error
                case MissingChecksum => requireChecksum && checksum == None
                case TooLarge => maxSize < |bytes|
                case ChecksumMismatch => checksum.Some? && !EqualIgnoringCase(checksum.value, sha(bytes))
                case WriteFailure => reach != Complete
                case _ => false
    {
      if requireChecksum && checksum == None {
        return Err(MissingChecksum);
      }
      if maxSize < |bytes| {
        return Err(TooLarge);
      }
      var digest := sha(bytes);
      if checksum.Some? && !EqualIgnoringCase(checksum.value, digest) {
        return Err(ChecksumMismatch);
      }
      var metadata := Metadata(id, digest, |bytes|, Some(now + ttl));
      if reach == Nothing {
        return Err(WriteFailure);
      }
      dirs := dirs[id := ArtifactDir(None, None)];
      if reach == DirectoryMade {
        return Err(WriteFailure);
      }
      dirs := dirs[id := dirs[id].(blob := Some(bytes))];
      if reach == BlobWritten {
        return Err(WriteFailure);
      }
      dirs := dirs[id := dirs[id].(metadata := Some(Parsed(metadata)))];
      r := Ok(metadata);
    }

    /** Removes exactly the directories that do not match, and counts them. */
    method RecoverIncompleteArtifacts() returns (removed: nat)
      modifies `dirs
      ensures dirs == Recovered(sha, old(dirs))
      ensures removed == |old(dirs)| - |dirs|
    {
      hide Matches;
      removed := 0;
      var ids := dirs.Keys;
      while ids != {}
        invariant ids <= old(dirs).Keys
        invariant dirs == map id | id in old(dirs) && (id in ids || Matches(sha, id, old(dirs)[id])) :: old(dirs)[id]
        invariant removed + |dirs.Keys| == |old(dirs).Keys|
        decreases |ids|
      {
        var id :| id in ids;
        if !Matches(sha, id, dirs[id]) {
          assert (dirs - {id}).Keys == dirs.Keys - {id};
          dirs, removed := dirs - {id}, removed + 1;
        }
        ids := ids - {id};
      }
    }

    /** Removes expired artifacts; metadata it cannot read ends the sweep early. */
    method CleanupExpired(now: Time) returns (r: Result<nat, ArtifactError>)
      modifies `dirs
      ensures forall id :: id in dirs ==> id in old(dirs) && dirs[id] == old(dirs)[id]
      ensures forall id :: id in old(dirs) && id !in dirs ==> MayRemove(old(dirs), id, now)
      ensures r.Ok? ==> forall id :: id in dirs && LoadMetadata(dirs, id).Ok? ==> !LoadMetadata(dirs, id).value.IsExpired(now)
      ensures r.Ok? <==> forall id :: id in old(dirs) ==>
                var m := LoadMetadata(old(dirs), id);
                m == Err(NotFound) || (m.Ok? && m.value.expiresAt.Some?)
      ensures r.Ok? ==> r.value == |old(dirs)| - |dirs|
    {
      hide ValidId, LoadMetadata;
      var removed: nat := 0;
      var ids := dirs.Keys;
      while ids != {}
        invariant ids <= dirs.Keys <= old(dirs).Keys
        invariant removed + |dirs.Keys| == |old(dirs).Keys|
        invariant forall id :: id in dirs ==> dirs[id] == old(dirs)[id]
        invariant forall id :: id in old(dirs) && id !in dirs ==>
                    LoadMetadata(old(dirs), id).Ok? && LoadMetadata(old(dirs), id).value.IsExpired(now)
        invariant forall id :: id in old(dirs) && id !in ids ==>
                    var m := LoadMetadata(old(dirs), id);
                    m == Err(NotFound) || (m.Ok? && m.value.expiresAt.Some? && (id in dirs ==> !m.value.IsExpired(now)))
        decreases |ids|
      {
        var id :| id in ids;
        var m := LoadMetadata(dirs, id);
        MetadataIsLocal(old(dirs), dirs, id);
        if m.Err? {
          if m.error != NotFound {
            return Err(m.error);
          }
        } else if m.value.expiresAt == None {
          return Err(ParseExpiry);
        } else if m.value.IsExpired(now) {
          assert (dirs - {id}).Keys == dirs.Keys - {id};
          dirs, removed := dirs - {id}, removed + 1;
        }
        ids := ids - {id};
      }
      forall id | id in dirs ensures LoadMetadata(dirs, id) == LoadMetadata(old(dirs), id) {
        MetadataIsLocal(old(dirs), dirs, id);
      }
      r := Ok(removed);
    }
  }

  lemma MetadataIsLocal(a: Dirs, b: Dirs, id: string)
    requires id in a && id in b && a[id] == b[id]
    ensures LoadMetadata(a, id) == LoadMetadata(b, id)
  {
  }

  // ---------------------------------------------------------------------------------------------
  // Every history of uploads, crashes and sweeps

  /** An upload under way. */
  datatype Upload = Upload(bytes: Bytes, blobWritten: bool)

  /** `completed` is history: every artifact whose upload was acknowledged. `sweptAt` is the latest
      time expired artifacts were swept. */
  datatype Archive = Archive(
    dirs: Dirs, uploads: map<string, Upload>, completed: map<string, (Bytes, Metadata)>, sweptAt: Option<Time>)

  datatype Event =
    | Begin(id: string, bytes: Bytes)
    | WriteBlob(id: string)
    | WriteMetadata(id: string, expiresAt: Time)
    | Abandon(id: string)
    | Sweep(removed: set<string>, now: Time)
    | CrashAndRecover

  /** A sweep may only remove what has expired; it need not get to all of it. */
  predicate MayRemove(dirs: Dirs, id: string, now: Time) {
    LoadMetadata(dirs, id).Ok? && LoadMetadata(dirs, id).value.IsExpired(now)
  }

  /** An event that is not possible in the state it meets changes nothing. */
  function Happens(sha: Digest, a: Archive, e: Event): Archive {
    match e
    case Begin(id, bytes) =>
      if ValidId(id) && id !in a.dirs && id !in a.completed && id !in a.uploads
      then a.(dirs := a.dirs[id := ArtifactDir(None, None)], uploads := a.uploads[id := Upload(bytes, false)])
      else a
    case WriteBlob(id) =>
      if id in a.uploads && !a.uploads[id].blobWritten && id in a.dirs
      then a.(dirs := a.dirs[id := a.dirs[id].(blob := Some(a.uploads[id].bytes))],
              uploads := a.uploads[id := a.uploads[id].(blobWritten := true)])
      else a
    case WriteMetadata(id, expiresAt) =>
      if id in a.uploads && a.uploads[id].blobWritten && id in a.dirs
      then
        var bytes := a.uploads[id].bytes;
        var m := MetadataOf(sha, id, bytes, expiresAt);
        a.(dirs := a.dirs[id := a.dirs[id].(metadata := Some(Parsed(m)))],
           uploads := a.uploads - {id}, completed := a.completed[id := (bytes, m)])
      else a
    case Abandon(id) => a.(uploads := a.uploads - {id})
    case Sweep(removed, now) =>
      if forall id :: id in removed ==> MayRemove(a.dirs, id, now)
      then a.(dirs := a.dirs - removed,
              sweptAt := if a.sweptAt.Some? && now <= a.sweptAt.value then a.sweptAt else Some(now))
      else a
    case CrashAndRecover => a.(dirs := Recovered(sha, a.dirs), uploads := map[])
  }

  function History(sha: Digest, a: Archive, events: seq<Event>): Archive
    decreases |events|
  {
    if events == [] then a else History(sha, Happens(sha, a, events[0]), events[1..])
  }

  /** The archive of a process that has just started on any disk whatever. */
  function Started(sha: Digest, dirs: Dirs): Archive {
    Archive(Recovered(sha, dirs), map[], map[], None)
  }

  predicate UploadSound(a: Archive, id: string)
    requires id in a.uploads
  {
    && id !in a.completed && ValidId(id) && id in a.dirs
    && a.dirs[id] == ArtifactDir(if a.uploads[id].blobWritten then Some(a.uploads[id].bytes) else None, None)
  }

  predicate CompletedSound(sha: Digest, a: Archive, id: string)
    requires id in a.completed
  {
    var (bytes, m) := a.completed[id];
    && ValidId(id) && m.expiresAt.Some? && m == MetadataOf(sha, id, bytes, m.expiresAt.value)
    && (id in a.dirs ==> a.dirs[id] == ArtifactDir(Some(bytes), Some(Parsed(m))))
    && (id !in a.dirs ==> a.sweptAt.Some? && m.IsExpired(a.sweptAt.value))
  }

  predicate ArchiveSound(sha: Digest, a: Archive) {
    && (forall id :: id in a.uploads ==> UploadSound(a, id))
    && (forall id :: id in a.completed ==> CompletedSound(sha, a, id))
    && (forall id :: id in a.dirs && a.dirs[id].metadata.Some? ==> Matches(sha, id, a.dirs[id]))
  }

  lemma UploadsStaySound(sha: Digest, a: Archive, e: Event, id: string)
    requires ArchiveSound(sha, a) && id in Happens(sha, a, e).uploads
    ensures UploadSound(Happens(sha, a, e), id)
  {
    hide ValidId, Matches, CompletedSound;
    if id in a.uploads {
      assert UploadSound(a, id);
    }
  }

  lemma CompletedStaySound(sha: Digest, a: Archive, e: Event, id: string)
    requires ArchiveSound(sha, a) && id in Happens(sha, a, e).completed
    ensures CompletedSound(sha, Happens(sha, a, e), id)
    ensures id in a.completed ==> Happens(sha, a, e).completed[id] == a.completed[id]
  {
    hide ValidId;
    if id in a.completed {
      assert CompletedSound(sha, a, id);
    }
    if id in a.uploads {
      assert UploadSound(a, id);
    }
  }

  lemma DescribedStayMatched(sha: Digest, a: Archive, e: Event, id: string)
    requires ArchiveSound(sha, a)
    requires var after := Happens(sha, a, e); id in after.dirs && after.dirs[id].metadata.Some?
    ensures Matches(sha, id, Happens(sha, a, e).dirs[id])
  {
    hide ValidId, CompletedSound;
    if id in a.uploads {
      assert UploadSound(a, id);
    }
  }

  lemma EventKeepsSound(sha: Digest, a: Archive, e: Event)
    requires ArchiveSound(sha, a)
    ensures ArchiveSound(sha, Happens(sha, a, e))
    ensures forall id :: id in a.completed ==>
              id in Happens(sha, a, e).completed && Happens(sha, a, e).completed[id] == a.completed[id]
  {
    hide CompletedSound, UploadSound, Matches;
    var after := Happens(sha, a, e);
    forall id | id in after.uploads ensures UploadSound(after, id) {
      UploadsStaySound(sha, a, e, id);
    }
    forall id | id in after.completed
      ensures CompletedSound(sha, after, id) && (id in a.completed ==> after.completed[id] == a.completed[id])
    {
      CompletedStaySound(sha, a, e, id);
    }
    forall id | id in after.dirs && after.dirs[id].metadata.Some? ensures Matches(sha, id, after.dirs[id]) {
      DescribedStayMatched(sha, a, e, id);
    }
  }

  lemma {:induction false} HistoryKeepsSound(sha: Digest, a: Archive, events: seq<Event>)
    requires ArchiveSound(sha, a)
    ensures ArchiveSound(sha, History(sha, a, events))
    ensures forall id :: id in a.completed ==>
              id in History(sha, a, events).completed && History(sha, a, events).completed[id] == a.completed[id]
    decreases |events|
  {
    hide ArchiveSound, Happens;
    if events != [] {
      EventKeepsSound(sha, a, events[0]);
      HistoryKeepsSound(sha, Happens(sha, a, events[0]), events[1..]);
    }
  }

  /** After any crashes, uploads and sweeps, whatever loads is as its metadata says. */
  lemma LoadsMatch(sha: Digest, dirs: Dirs, events: seq<Event>, id: string, now: Time)
    ensures
      var loaded := Load(History(sha, Started(sha, dirs), events).dirs, id, now);
      loaded.Ok? ==>
        && loaded.value.0.artifactId == id
        && loaded.value.0.size == |loaded.value.1| && loaded.value.0.sha256 == sha(loaded.value.1)
  {
    hide ValidId;
    assert ArchiveSound(sha, Started(sha, dirs));
    HistoryKeepsSound(sha, Started(sha, dirs), events);
  }

  /** An acknowledged artifact survives whatever happens after it: until it expires it loads, with the
      bytes that were stored. */
  lemma CompletedArtifactsSurvive(sha: Digest, dirs: Dirs, events: seq<Event>, later: seq<Event>, id: string, now: Time)
    requires id in History(sha, Started(sha, dirs), events).completed
    requires
      var a := History(sha, Started(sha, dirs), events);
      var end := History(sha, a, later);
      && !a.completed[id].1.IsExpired(now)
      && (end.sweptAt.Some? ==> end.sweptAt.value <= now)
    ensures
      var a := History(sha, Started(sha, dirs), events);
      Load(History(sha, a, later).dirs, id, now) == Ok((a.completed[id].1, a.completed[id].0))
  {
    hide ValidId;
    assert ArchiveSound(sha, Started(sha, dirs));
    HistoryKeepsSound(sha, Started(sha, dirs), events);
    var a := History(sha, Started(sha, dirs), events);
    HistoryKeepsSound(sha, a, later);
    assert CompletedSound(sha, History(sha, a, later), id);
  }

  // ---------------------------------------------------------------------------------------------
  // The store's methods are such histories

  /** An upload that gets as far as `reach`. */
  function Uploading(id: string, bytes: Bytes, expiresAt: Time, reach: Reach): seq<Event> {
    match reach
    case Nothing => []
    case DirectoryMade => [Begin(id, bytes), Abandon(id)]
    case BlobWritten => [Begin(id, bytes), WriteBlob(id), Abandon(id)]
    case Complete => [Begin(id, bytes), WriteBlob(id), WriteMetadata(id, expiresAt)]
  }

  /** What `StoreBytes` leaves at every point of failure is what the upload's events up to there leave,
      and it acknowledges exactly the uploads whose events complete. */
  lemma StoringIsUploading(sha: Digest, a: Archive, id: string, bytes: Bytes, expiresAt: Time, reach: Reach)
    requires ValidId(id) && id !in a.dirs && id !in a.completed && id !in a.uploads
    ensures
      var after, m := History(sha, a, Uploading(id, bytes, expiresAt, reach)), MetadataOf(sha, id, bytes, expiresAt);
      && after.dirs == (if reach == Nothing then a.dirs else a.dirs[id := DirAt(reach, bytes, m)])
      && after.uploads == a.uploads
      && after.completed == if reach == Complete then a.completed[id := (bytes, m)] else a.completed
  {
    hide ValidId;
    var begun := Happens(sha, a, Begin(id, bytes));
    var written := Happens(sha, begun, WriteBlob(id));
    assert begun.uploads - {id} == a.uploads && written.uploads - {id} == a.uploads;
    match reach
    case Nothing =>
    case DirectoryMade => HistoryOfTwo(sha, a, Begin(id, bytes), Abandon(id));
    case BlobWritten => HistoryOfThree(sha, a, Begin(id, bytes), WriteBlob(id), Abandon(id));
    case Complete => HistoryOfThree(sha, a, Begin(id, bytes), WriteBlob(id), WriteMetadata(id, expiresAt));
  }

  lemma HistoryOfTwo(sha: Digest, a: Archive, e: Event, f: Event)
    ensures History(sha, a, [e, f]) == Happens(sha, Happens(sha, a, e), f)
  {
    hide Happens;
    assert [e, f][1..] == [f] && [f][1..] == [];
    assert History(sha, Happens(sha, a, e), [f]) == History(sha, Happens(sha, Happens(sha, a, e), f), []);
  }

  lemma HistoryOfThree(sha: Digest, a: Archive, e: Event, f: Event, g: Event)
    ensures History(sha, a, [e, f, g]) == Happens(sha, Happens(sha, Happens(sha, a, e), f), g)
  {
    hide Happens;
    assert [e, f, g][1..] == [f, g];
    HistoryOfTwo(sha, Happens(sha, a, e), f, g);
  }

  /** Any outcome the contract of `CleanupExpired` allows is that of a sweep. */
  lemma CleaningIsSweeping(sha: Digest, a: Archive, kept: Dirs, now: Time)
    requires forall id :: id in kept ==> id in a.dirs && kept[id] == a.dirs[id]
    requires forall id :: id in a.dirs && id !in kept ==> MayRemove(a.dirs, id, now)
    ensures Happens(sha, a, Sweep(a.dirs.Keys - kept.Keys, now)).dirs == kept
  {
    hide LoadMetadata, MayRemove;
    assert (a.dirs - (a.dirs.Keys - kept.Keys)).Keys == kept.Keys;
  }

  /** Recovery is a projection, and one cut short after removing any of the bad directories is finished
      by the next. */
  lemma RecoveryResumes(sha: Digest, dirs: Dirs, removed: set<string>)
    requires forall id :: id in removed && id in dirs ==> !Matches(sha, id, dirs[id])
    ensures Recovered(sha, dirs - removed) == Recovered(sha, dirs)
    ensures Recovered(sha, Recovered(sha, dirs)) == Recovered(sha, dirs)
  {
    hide Matches;
    assert Recovered(sha, dirs - removed).Keys == Recovered(sha, dirs).Keys;
  }
}
