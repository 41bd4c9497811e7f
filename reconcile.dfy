/** What one folder pass does to the two stores, stated as functions: the
    effect of `handleFileSync` on one key, and the whole pass as that effect
    applied to every key in the order the keys are visited. The lemmas show
    that a pass leaves every key it completes settled, so that a second pass
    changes nothing. */
module Reconcile {
  import opened Common
  import opened Drive
  import opened LocalFs
  import opened FileIndex
  import opened SyncPolicy

  /** The remote objects and the local entries of one category root. */
  datatype Stores = Stores(objects: seq<RemoteObject>, entries: map<Path, LocalEntry>)

  /** The remote index of a folder: its listing keyed by `localPath`. Each
      value is a current snapshot of a listed object and is stored under its
      own key. */
  function RemoteIndex(objects: seq<RemoteObject>, folderId: Id): (m: map<Path, RemoteFile>)
    ensures forall k :: k in m ==>
      && m[k].id < |objects| && Listed(objects[m[k].id], folderId)
      && m[k] == Snapshot(m[k].id, objects[m[k].id])
      && LocalPathOf(m[k]) == Some(k)
  {
    var files := Listing(objects, folderId);
    ListingFacts(objects, folderId);
    RemoteIndexFacts(files);
    BuildRemoteFileMap(files)
  }

  /** Two keys of a remote index never share an object. */
  lemma RemoteIndexIdsAreDistinct(objects: seq<RemoteObject>, folderId: Id, k: Path, k': Path)
    requires k in RemoteIndex(objects, folderId) && k' in RemoteIndex(objects, folderId)
    requires RemoteIndex(objects, folderId)[k].id == RemoteIndex(objects, folderId)[k'].id
    ensures k == k'
  {
  }

  /** The remote file stored under `k`, if any. */
  function RemoteAt(s: Stores, folderId: Id, k: Path): Option<RemoteFile> {
    Get(RemoteIndex(s.objects, folderId), k)
  }

  /** The local file stored under `k`, if any. */
  function LocalAt(s: Stores, k: Path): Option<LocalFile> {
    Get(BuildLocalFileMap(s.entries), k)
  }

  /** A file's modification time and bytes, whichever side holds it. */
  datatype Version = Version(modifiedTime: int, content: Bytes)

  function RemoteVersionAt(s: Stores, folderId: Id, k: Path): Option<Version> {
    match RemoteAt(s, folderId, k)
    case None => None
    case Some(r) => Some(Version(r.modifiedTime, s.objects[r.id].content))
  }

  function LocalVersionAt(s: Stores, k: Path): Option<Version> {
    match LocalAt(s, k)
    case None => None
    case Some(l) => Some(Version(l.lastModified, l.content))
  }

  /** The last segment of a relative path (`File.name`). */
  function FileName(path: Path): (name: string)
    ensures '/' !in name && |name| <= |path|
  {
    if path == [] || path[|path| - 1] == '/' then []
    else FileName(path[..|path| - 1]) + [path[|path| - 1]]
  }

  /** The name is the end of the path after its last separator. */
  lemma {:induction false} FileNameIsLastSegment(path: Path)
    ensures var name := FileName(path);
      && name == path[|path| - |name|..]
      && (|name| < |path| ==> path[|path| - |name| - 1] == '/')
  {
    if path != [] && path[|path| - 1] != '/' {
      var init, last := path[..|path| - 1], path[|path| - 1];
      assert path == init + [last];
      FileNameIsLastSegment(init);
      var n := FileName(init);
      assert FileName(path) == n + [last];
      var start := |init| - |n|;
      assert path[start..] == init[start..] + [last] by {
        assert path[start..] == (init + [last])[start..];
      }
      if |n| < |init| {
        assert path[start - 1] == init[start - 1];
      }
    }
  }

  /** The object `onLocalOnly` creates: named after the file, in the category
      folder, carrying the relative path as `localPath` and the local
      modification time. */
  function Upload(folderId: Id, local: LocalFile, md5: Bytes -> Digest): RemoteObject {
    NewFile(InFolder(folderId), FileName(local.path), map[LOCAL_PATH_PROPERTY := local.path],
            local.lastModified, local.content, md5)
  }

  /** `downloadToLocal`: nothing for an empty remote file; otherwise the
      remote bytes are written to `path` and stamped with the remote time,
      unless `path` is a directory, which makes the write raise. */
  function DownloadToLocal(s: Stores, remote: RemoteFile, path: Path): Stores
    requires remote.id < |s.objects|
  {
    if remote.size == 0 || IsDirectoryAt(s.entries, path) then s
    else s.(entries := s.entries[path := LocalEntry(false, remote.modifiedTime, s.objects[remote.id].content)])
  }

  /** `handleFileSync` for one key: the decided action, or nothing at all when
      the action raises (`fails`), since `runCatching` swallows the error. */
  function HandleFileSync(
    s: Stores, folderId: Id, remote: Option<RemoteFile>, local: Option<LocalFile>,
    fails: bool, md5: Bytes -> Digest): (s': Stores)
    requires remote.Some? ==> remote.value.id < |s.objects| && LocalPathOf(remote.value).Some?
    ensures |s'.objects| >= |s.objects|
  {
    if fails then s
    else match Decide(remote, local, md5)
      case DownloadNew => DownloadToLocal(s, remote.value, LocalPathOf(remote.value).value)
      case UploadNew => s.(objects := s.objects + [Upload(folderId, local.value, md5)])
      case UploadUpdate =>
        var id := remote.value.id;
        s.(objects := s.objects[id := Updated(s.objects[id], local.value.lastModified, local.value.content, md5)])
      case DownloadUpdate => DownloadToLocal(s, remote.value, local.value.path)
      case NoAction => s
  }

  /** The snapshots a pass starts from may be used on any later state of it. */
  ghost predicate UsableIndex(ridx: map<Path, RemoteFile>, n: nat) {
    forall k :: k in ridx ==> ridx[k].id < n && LocalPathOf(ridx[k]) == Some(k)
  }

  /** A folder pass (`syncLocalAndRemoteFolder`): every key of `order` in
      turn, each with the snapshots `ridx` and `lidx` taken before the pass;
      the keys in `failing` are those whose action raises. */
  function SyncPass(
    s: Stores, folderId: Id, ridx: map<Path, RemoteFile>, lidx: map<Path, LocalFile>,
    order: seq<Path>, failing: set<Path>, md5: Bytes -> Digest): (s': Stores)
    requires UsableIndex(ridx, |s.objects|)
    ensures |s'.objects| >= |s.objects|
    decreases |order|
  {
    if order == [] then s
    else
      var k := order[|order| - 1];
      var before := SyncPass(s, folderId, ridx, lidx, order[..|order| - 1], failing, md5);
      HandleFileSync(before, folderId, Get(ridx, k), Get(lidx, k), k in failing, md5)
  }

  /** Extending the visit order by one key handles that key after the rest. */
  lemma SyncPassStep(
    s: Stores, folderId: Id, ridx: map<Path, RemoteFile>, lidx: map<Path, LocalFile>,
    order: seq<Path>, k: Path, failing: set<Path>, md5: Bytes -> Digest)
    requires UsableIndex(ridx, |s.objects|)
    ensures SyncPass(s, folderId, ridx, lidx, order + [k], failing, md5)
         == HandleFileSync(SyncPass(s, folderId, ridx, lidx, order, failing, md5),
                           folderId, Get(ridx, k), Get(lidx, k), k in failing, md5)
  {
    assert (order + [k])[..|order|] == order;
  }

  /** A folder pass that starts from the indexes of the stores it runs on,
      as `syncLocalAndRemoteFolder` does. */
  function PassFrom(s0: Stores, folderId: Id, order: seq<Path>, failing: set<Path>, md5: Bytes -> Digest): Stores {
    SyncPass(s0, folderId, RemoteIndex(s0.objects, folderId), BuildLocalFileMap(s0.entries), order, failing, md5)
  }

  /** Handling `k` again would change nothing: there is nothing to do, or the
      remote file to download is empty, or a directory stands where it would
      go. */
  ghost predicate SettledAt(s: Stores, folderId: Id, k: Path, md5: Bytes -> Digest) {
    var remote, local := RemoteAt(s, folderId, k), LocalAt(s, k);
    match Decide(remote, local, md5)
    case NoAction => true
    case DownloadNew => remote.value.size == 0 || IsDirectoryAt(s.entries, k)
    case DownloadUpdate => remote.value.size == 0
    case _ => false
  }

  /** Nothing a pass can see at `k` differs between `s` and `s'`. */
  ghost predicate UnchangedAt(s: Stores, s': Stores, folderId: Id, k: Path) {
    && RemoteAt(s', folderId, k) == RemoteAt(s, folderId, k)
    && RemoteVersionAt(s', folderId, k) == RemoteVersionAt(s, folderId, k)
    && LocalAt(s', k) == LocalAt(s, k)
    && IsDirectoryAt(s'.entries, k) == IsDirectoryAt(s.entries, k)
  }

  /** No key other than `k` sees a difference between `s` and `s'`. */
  ghost predicate OthersUnchanged(s: Stores, s': Stores, folderId: Id, k: Path) {
    forall j :: j != k ==> UnchangedAt(s, s', folderId, j)
  }

  /** What handling `k` in `s` achieved in `s'`: after an upload the remote
      side holds the local version, after a download that was not skipped
      the local side holds the remote version, and otherwise nothing moved. */
  ghost predicate ReconciledAt(s: Stores, s': Stores, folderId: Id, k: Path, md5: Bytes -> Digest) {
    var remote, local := RemoteAt(s, folderId, k), LocalAt(s, k);
    match Decide(remote, local, md5)
    case UploadNew =>
      RemoteVersionAt(s', folderId, k) == LocalVersionAt(s, k) && LocalAt(s', k) == local
      && RemoteAt(s', folderId, k).value.parent == InFolder(folderId)
    case UploadUpdate =>
      RemoteVersionAt(s', folderId, k) == LocalVersionAt(s, k) && LocalAt(s', k) == local
      && RemoteAt(s', folderId, k).value.id == remote.value.id
    case DownloadNew =>
      if remote.value.size == 0 || IsDirectoryAt(s.entries, k) then UnchangedAt(s, s', folderId, k)
      else LocalVersionAt(s', k) == RemoteVersionAt(s, folderId, k) && RemoteAt(s', folderId, k) == remote
    case DownloadUpdate =>
      if remote.value.size == 0 then UnchangedAt(s, s', folderId, k)
      else LocalVersionAt(s', k) == RemoteVersionAt(s, folderId, k) && RemoteAt(s', folderId, k) == remote
    case NoAction => UnchangedAt(s, s', folderId, k)
  }

  /** Creating an object adds it to the index of the folder it is listed in,
      under its `localPath`, and to no other index. */
  lemma RemoteIndexAppend(objects: seq<RemoteObject>, o: RemoteObject, folderId: Id)
    ensures var snap := Snapshot(|objects|, o);
      RemoteIndex(objects + [o], folderId)
        == if Listed(o, folderId) && LocalPathOf(snap).Some?
           then RemoteIndex(objects, folderId)[LocalPathOf(snap).value := snap]
           else RemoteIndex(objects, folderId)
  {
    ListingAppend(objects, o, folderId);
    var snap := Snapshot(|objects|, o);
    if Listed(o, folderId) {
      BuildRemoteFileMapAppend(Listing(objects, folderId), snap);
      assert RemoteIndex(objects + [o], folderId) == BuildRemoteFileMap(Listing(objects, folderId) + [snap]);
    } else {
      assert Listing(objects + [o], folderId) == Listing(objects, folderId);
    }
  }

  /** Updating an object without touching its type, place or properties
      replaces its snapshot in the index and changes nothing else. */
  lemma RemoteIndexReplace(objects: seq<RemoteObject>, i: Id, o: RemoteObject, folderId: Id)
    requires i < |objects|
    requires Listed(o, folderId) == Listed(objects[i], folderId)
    requires o.appProperties == objects[i].appProperties
    ensures RemoteIndex(objects[i := o], folderId) == ReplaceValue(RemoteIndex(objects, folderId), i, Snapshot(i, o))
  {
    ListingReplace(objects, i, o, folderId);
    ListingFacts(objects, folderId);
    BuildRemoteFileMapReplace(Listing(objects, folderId), i, Snapshot(i, o));
  }

  /** Writing the entry at `k` changes nothing any other key sees. */
  lemma WriteFrame(s: Stores, k: Path, e: LocalEntry, folderId: Id, j: Path)
    requires j != k
    ensures UnchangedAt(s, s.(entries := s.entries[k := e]), folderId, j)
  {
    assert BuildLocalFileMap(s.entries[k := e]) - {k} == BuildLocalFileMap(s.entries) - {k};
  }

  /** What the key `k` sees after its entry is overwritten by `e`. */
  lemma WriteHere(s: Stores, k: Path, e: LocalEntry, folderId: Id)
    ensures var s' := s.(entries := s.entries[k := e]);
      && RemoteAt(s', folderId, k) == RemoteAt(s, folderId, k)
      && RemoteVersionAt(s', folderId, k) == RemoteVersionAt(s, folderId, k)
      && IsDirectoryAt(s'.entries, k) == e.isDirectory
      && LocalAt(s', k) == (if Syncable(e) then Some(LocalFile(k, e.lastModified, e.content)) else None)
  {
  }

  /** Creating an object that does not carry the key `j` into this folder
      changes nothing `j` sees. */
  lemma AppendFrame(s: Stores, o: RemoteObject, folderId: Id, j: Path)
    requires Listed(o, folderId) ==> LocalPathOf(Snapshot(|s.objects|, o)) != Some(j)
    ensures UnchangedAt(s, s.(objects := s.objects + [o]), folderId, j)
  {
    RemoteIndexAppend(s.objects, o, folderId);
    var s' := s.(objects := s.objects + [o]);
    if j in RemoteIndex(s.objects, folderId) {
      var id := RemoteIndex(s.objects, folderId)[j].id;
      assert s'.objects[id] == s.objects[id];
    }
  }

  /** Updating the object stored under `k` changes nothing another key sees. */
  lemma ReplaceFrame(s: Stores, k: Path, o: RemoteObject, folderId: Id, j: Path)
    requires k in RemoteIndex(s.objects, folderId) && j != k
    requires var i := RemoteIndex(s.objects, folderId)[k].id;
      Listed(o, folderId) == Listed(s.objects[i], folderId) && o.appProperties == s.objects[i].appProperties
    ensures UnchangedAt(s, s.(objects := s.objects[RemoteIndex(s.objects, folderId)[k].id := o]), folderId, j)
  {
    var m := RemoteIndex(s.objects, folderId);
    var i := m[k].id;
    var s' := s.(objects := s.objects[i := o]);
    RemoteIndexReplace(s.objects, i, o, folderId);
    if j in m {
      var id := m[j].id;
      if id == i {
        RemoteIndexIdsAreDistinct(s.objects, folderId, j, k);
      }
      assert RemoteIndex(s'.objects, folderId)[j] == m[j];
      assert s'.objects[id] == s.objects[id];
    } else {
      assert j !in RemoteIndex(s'.objects, folderId);
    }
  }

  /** A download that is not skipped: the local side takes the remote
      version and the key is settled. */
  lemma DownloadOutcome(s: Stores, folderId: Id, k: Path, md5: Bytes -> Digest)
    requires RemoteAt(s, folderId, k).Some? && RemoteAt(s, folderId, k).value.size != 0
    requires !IsDirectoryAt(s.entries, k)
    ensures var r := RemoteAt(s, folderId, k).value;
      var s' := s.(entries := s.entries[k := LocalEntry(false, r.modifiedTime, s.objects[r.id].content)]);
      && LocalVersionAt(s', k) == RemoteVersionAt(s, folderId, k)
      && RemoteAt(s', folderId, k) == RemoteAt(s, folderId, k)
      && SettledAt(s', folderId, k, md5)
      && OthersUnchanged(s, s', folderId, k)
  {
    var r := RemoteAt(s, folderId, k).value;
    var e := LocalEntry(false, r.modifiedTime, s.objects[r.id].content);
    var s' := s.(entries := s.entries[k := e]);
    WriteHere(s, k, e, folderId);
    assert LocalAt(s', k) == Some(LocalFile(k, r.modifiedTime, s.objects[r.id].content));
    assert Decide(RemoteAt(s', folderId, k), LocalAt(s', k), md5) == NoAction;
    forall j | j != k ensures UnchangedAt(s, s', folderId, j) {
      WriteFrame(s, k, e, folderId, j);
    }
  }

  /** An upload of a file the remote side lacks: the new object carries the
      local version under the same key, and the key is settled. */
  lemma UploadNewOutcome(s: Stores, folderId: Id, k: Path, md5: Bytes -> Digest)
    requires LocalAt(s, k).Some?
    ensures var s' := s.(objects := s.objects + [Upload(folderId, LocalAt(s, k).value, md5)]);
      && RemoteVersionAt(s', folderId, k) == LocalVersionAt(s, k)
      && RemoteAt(s', folderId, k).Some? && RemoteAt(s', folderId, k).value.parent == InFolder(folderId)
      && LocalAt(s', k) == LocalAt(s, k)
      && SettledAt(s', folderId, k, md5)
      && OthersUnchanged(s, s', folderId, k)
  {
    UploadNewHere(s, folderId, k, md5);
    UploadNewFrame(s, folderId, k, md5);
  }

  lemma UploadNewHere(s: Stores, folderId: Id, k: Path, md5: Bytes -> Digest)
    requires LocalAt(s, k).Some?
    ensures var s' := s.(objects := s.objects + [Upload(folderId, LocalAt(s, k).value, md5)]);
      && RemoteAt(s', folderId, k) == Some(Snapshot(|s.objects|, Upload(folderId, LocalAt(s, k).value, md5)))
      && RemoteVersionAt(s', folderId, k) == LocalVersionAt(s, k)
      && LocalAt(s', k) == LocalAt(s, k)
      && SettledAt(s', folderId, k, md5)
  {
    var local := LocalAt(s, k).value;
    var o := Upload(folderId, local, md5);
    var s' := s.(objects := s.objects + [o]);
    var snap := Snapshot(|s.objects|, o);
    assert RemoteAt(s', folderId, k) == Some(snap) by {
      assert local.path == k;
      UploadSnapshot(|s.objects|, folderId, local, md5);
      AppendedAt(s, o, folderId, k);
    }
    assert RemoteVersionAt(s', folderId, k) == Some(Version(local.lastModified, local.content)) by {
      assert s'.objects[|s.objects|] == o;
      UploadSnapshot(|s.objects|, folderId, local, md5);
    }
    assert SettledAt(s', folderId, k, md5) by {
      assert LocalAt(s', k) == Some(local);
      UploadSnapshot(|s.objects|, folderId, local, md5);
      assert Decide(Some(snap), Some(local), md5) == NoAction;
    }
  }

  /** What the listing reports of an uploaded file. */
  lemma UploadSnapshot(n: nat, folderId: Id, local: LocalFile, md5: Bytes -> Digest)
    ensures var o := Upload(folderId, local, md5);
      var snap := Snapshot(n, o);
      && Listed(o, folderId) && LocalPathOf(snap) == Some(local.path) && o.content == local.content
      && snap.modifiedTime == local.lastModified && snap.parent == InFolder(folderId)
  {
  }

  /** An object created into the folder is what its key sees afterwards. */
  lemma AppendedAt(s: Stores, o: RemoteObject, folderId: Id, k: Path)
    requires Listed(o, folderId) && LocalPathOf(Snapshot(|s.objects|, o)) == Some(k)
    ensures RemoteAt(s.(objects := s.objects + [o]), folderId, k) == Some(Snapshot(|s.objects|, o))
  {
    RemoteIndexAppend(s.objects, o, folderId);
  }

  lemma UploadNewFrame(s: Stores, folderId: Id, k: Path, md5: Bytes -> Digest)
    requires LocalAt(s, k).Some?
    ensures var s' := s.(objects := s.objects + [Upload(folderId, LocalAt(s, k).value, md5)]);
      OthersUnchanged(s, s', folderId, k)
  {
    var local := LocalAt(s, k).value;
    var o := Upload(folderId, local, md5);
    assert LocalPathOf(Snapshot(|s.objects|, o)) == Some(k) by {
      assert local.path == k;
    }
    forall j | j != k ensures UnchangedAt(s, s.(objects := s.objects + [o]), folderId, j) {
      AppendFrame(s, o, folderId, j);
    }
  }

  /** An update of the remote file from a newer local one: the same object
      now carries the local version, and the key is settled. */
  lemma UploadUpdateOutcome(s: Stores, folderId: Id, k: Path, md5: Bytes -> Digest)
    requires RemoteAt(s, folderId, k).Some? && LocalAt(s, k).Some?
    ensures var i, local := RemoteAt(s, folderId, k).value.id, LocalAt(s, k).value;
      var s' := s.(objects := s.objects[i := Updated(s.objects[i], local.lastModified, local.content, md5)]);
      && RemoteVersionAt(s', folderId, k) == LocalVersionAt(s, k)
      && RemoteAt(s', folderId, k).Some? && RemoteAt(s', folderId, k).value.id == i
      && LocalAt(s', k) == LocalAt(s, k)
      && SettledAt(s', folderId, k, md5)
      && OthersUnchanged(s, s', folderId, k)
  {
    var i, local := RemoteAt(s, folderId, k).value.id, LocalAt(s, k).value;
    var o := Updated(s.objects[i], local.lastModified, local.content, md5);
    var s' := s.(objects := s.objects[i := o]);
    RemoteIndexReplace(s.objects, i, o, folderId);
    assert RemoteAt(s', folderId, k) == Some(Snapshot(i, o));
    assert Decide(RemoteAt(s', folderId, k), LocalAt(s', k), md5) == NoAction;
    forall j | j != k ensures UnchangedAt(s, s', folderId, j) {
      ReplaceFrame(s, k, o, folderId, j);
    }
  }

  /** Handling a key with what the stores currently hold under it reconciles
      that key, leaves it settled, and changes nothing any other key sees. */
  lemma HandleOutcome(s: Stores, folderId: Id, k: Path, md5: Bytes -> Digest)
    ensures var s' := HandleFileSync(s, folderId, RemoteAt(s, folderId, k), LocalAt(s, k), false, md5);
      && ReconciledAt(s, s', folderId, k, md5) && SettledAt(s', folderId, k, md5)
      && OthersUnchanged(s, s', folderId, k)
  {
    var remote, local := RemoteAt(s, folderId, k), LocalAt(s, k);
    match Decide(remote, local, md5)
    case DownloadNew =>
      if remote.value.size != 0 && !IsDirectoryAt(s.entries, k) {
        DownloadOutcome(s, folderId, k, md5);
      }
    case DownloadUpdate =>
      if remote.value.size != 0 {
        DownloadOutcome(s, folderId, k, md5);
      }
    case UploadNew =>
      UploadNewOutcome(s, folderId, k, md5);
    case UploadUpdate =>
      UploadUpdateOutcome(s, folderId, k, md5);
    case NoAction =>
  }

  /** Whether a key is settled depends only on what the key sees. */
  lemma SettledTransport(a: Stores, b: Stores, folderId: Id, k: Path, md5: Bytes -> Digest)
    requires UnchangedAt(a, b, folderId, k) && SettledAt(a, folderId, k, md5)
    ensures SettledAt(b, folderId, k, md5)
  {
  }

  /** Whether a key was reconciled depends only on what the key sees before
      and after. */
  lemma ReconciledTransport(a: Stores, a': Stores, b: Stores, b': Stores, folderId: Id, k: Path, md5: Bytes -> Digest)
    requires UnchangedAt(a, a', folderId, k) && UnchangedAt(b, b', folderId, k)
    requires ReconciledAt(a, b, folderId, k, md5)
    ensures ReconciledAt(a', b', folderId, k, md5)
  {
  }

  /** A key is settled exactly when handling it would leave both stores as
      they are. */
  lemma SettledIffNoOp(s: Stores, folderId: Id, k: Path, md5: Bytes -> Digest)
    ensures SettledAt(s, folderId, k, md5)
        <==> HandleFileSync(s, folderId, RemoteAt(s, folderId, k), LocalAt(s, k), false, md5) == s
  {
    var remote, local := RemoteAt(s, folderId, k), LocalAt(s, k);
    var s' := HandleFileSync(s, folderId, remote, local, false, md5);
    match Decide(remote, local, md5)
    case UploadNew =>
      assert |s'.objects| == |s.objects| + 1;
    case UploadUpdate =>
      var i := remote.value.id;
      assert s'.objects[i].modifiedTime == local.value.lastModified != s.objects[i].modifiedTime;
    case DownloadNew =>
      if remote.value.size != 0 && !IsDirectoryAt(s.entries, k) {
        assert k !in BuildLocalFileMap(s.entries);
        assert |s.objects[remote.value.id].content| > 0;
        assert k in BuildLocalFileMap(s'.entries);
      }
    case DownloadUpdate =>
      if remote.value.size != 0 {
        assert s'.entries[k].lastModified == remote.value.modifiedTime != s.entries[k].lastModified;
      }
    case NoAction =>
  }

  /** A folder pass that starts from the indexes of `s0` and visits each key
      at most once: every key it skips or fails on is untouched, and every
      key it handles is reconciled and left settled. */
  lemma {:induction false} SyncPassOutcome(
    s0: Stores, folderId: Id, order: seq<Path>, failing: set<Path>, md5: Bytes -> Digest)
    requires NoDuplicates(order)
    ensures forall k :: k !in order || k in failing ==> UnchangedAt(s0, PassFrom(s0, folderId, order, failing, md5), folderId, k)
    ensures forall k :: k in order && k !in failing ==>
      && ReconciledAt(s0, PassFrom(s0, folderId, order, failing, md5), folderId, k, md5)
      && SettledAt(PassFrom(s0, folderId, order, failing, md5), folderId, k, md5)
  {
    var ridx, lidx := RemoteIndex(s0.objects, folderId), BuildLocalFileMap(s0.entries);
    if order != [] {
      var prefix, k := order[..|order| - 1], order[|order| - 1];
      assert order == prefix + [k];
      SyncPassOutcome(s0, folderId, prefix, failing, md5);
      var mid := SyncPass(s0, folderId, ridx, lidx, prefix, failing, md5);
      var s' := SyncPass(s0, folderId, ridx, lidx, order, failing, md5);
      assert k !in prefix;
      assert UnchangedAt(s0, mid, folderId, k);
      assert Get(ridx, k) == RemoteAt(mid, folderId, k) && Get(lidx, k) == LocalAt(mid, k);
      assert s' == HandleFileSync(mid, folderId, RemoteAt(mid, folderId, k), LocalAt(mid, k), k in failing, md5);
      if k !in failing {
        HandleOutcome(mid, folderId, k, md5);
        ReconciledTransport(mid, s0, s', s', folderId, k, md5);
        forall j | j !in order || j in failing ensures UnchangedAt(s0, s', folderId, j) {
          assert j != k && (j !in prefix || j in failing);
          assert UnchangedAt(s0, mid, folderId, j) && UnchangedAt(mid, s', folderId, j);
        }
        forall j | j in order && j !in failing
          ensures ReconciledAt(s0, s', folderId, j, md5) && SettledAt(s', folderId, j, md5)
        {
          if j != k {
            assert j in prefix;
            ReconciledTransport(s0, s0, mid, s', folderId, j, md5);
            SettledTransport(mid, s', folderId, j, md5);
          }
        }
      }
    }
  }

  /** A pass over keys that are all settled changes nothing, whichever keys
      fail. */
  lemma {:induction false} SettledPassIsNoOp(
    s: Stores, folderId: Id, order: seq<Path>, failing: set<Path>, md5: Bytes -> Digest)
    requires forall k :: k in order ==> SettledAt(s, folderId, k, md5)
    ensures PassFrom(s, folderId, order, failing, md5) == s
  {
    if order != [] {
      var prefix, k := order[..|order| - 1], order[|order| - 1];
      SettledPassIsNoOp(s, folderId, prefix, failing, md5);
      SettledIffNoOp(s, folderId, k, md5);
    }
  }

  /** The keys a folder pass visits: those of either index. */
  function PassKeys(s: Stores, folderId: Id): set<Path> {
    RemoteIndex(s.objects, folderId).Keys + BuildLocalFileMap(s.entries).Keys
  }

  /** `order` visits every key of either index of `s`, each once, and
      nothing else: the keys `syncLocalAndRemoteFolder` walks. */
  ghost predicate CoversPass(s: Stores, folderId: Id, order: seq<Path>) {
    NoDuplicates(order) && forall k :: k in order <==> k in PassKeys(s, folderId)
  }

  /** A pass that visits every key of either index once leaves every key
      settled, except those whose action failed. */
  lemma PassSettlesEverything(s0: Stores, folderId: Id, order: seq<Path>, failing: set<Path>, md5: Bytes -> Digest)
    requires NoDuplicates(order) && forall k :: k in PassKeys(s0, folderId) ==> k in order
    ensures forall k :: k !in failing ==> SettledAt(PassFrom(s0, folderId, order, failing, md5), folderId, k, md5)
  {
    SyncPassOutcome(s0, folderId, order, failing, md5);
  }

  /** A complete pass changes the remote store only inside its folder, and
      without failures leaves every key of the folder settled. */
  lemma CompletePassOutcome(s0: Stores, folderId: Id, order: seq<Path>, failing: set<Path>, md5: Bytes -> Digest)
    requires NoDuplicates(order) && forall k :: k in PassKeys(s0, folderId) ==> k in order
    ensures ConfinedTo(s0.objects, PassFrom(s0, folderId, order, failing, md5).objects, folderId)
    ensures failing == {} ==> forall k :: SettledAt(PassFrom(s0, folderId, order, failing, md5), folderId, k, md5)
  {
    SyncPassConfined(s0, folderId, BuildLocalFileMap(s0.entries), order, failing, md5);
    PassSettlesEverything(s0, folderId, order, failing, md5);
  }

  /** Synchronising is idempotent: once a pass with no failures has visited
      every key, a second pass, in any order and with any failures, changes
      nothing. */
  lemma SecondPassChangesNothing(
    s0: Stores, folderId: Id, order: seq<Path>, order': seq<Path>, failing': set<Path>, md5: Bytes -> Digest)
    requires NoDuplicates(order) && forall k :: k in PassKeys(s0, folderId) ==> k in order
    ensures var s' := PassFrom(s0, folderId, order, {}, md5);
      PassFrom(s', folderId, order', failing', md5) == s'
  {
    var none: set<Path> := {};
    PassSettlesEverything(s0, folderId, order, none, md5);
    var s' := PassFrom(s0, folderId, order, none, md5);
    forall k | k in order' ensures SettledAt(s', folderId, k, md5) {
      assert k !in none;
    }
    SettledPassIsNoOp(s', folderId, order', failing', md5);
  }

  /** `objects'` differs from `objects` only inside folder `folderId`: every
      object keeps its name and type, the ones that changed lived in that
      folder and still do, and the new ones are files in that folder. */
  ghost predicate ConfinedTo(objects: seq<RemoteObject>, objects': seq<RemoteObject>, folderId: Id) {
    && |objects| <= |objects'|
    && (forall i :: 0 <= i < |objects| ==>
          && objects'[i].name == objects[i].name && objects'[i].mimeType == objects[i].mimeType
          && (objects'[i] == objects[i] || (objects[i].parent == InFolder(folderId) && objects'[i].parent == InFolder(folderId))))
    && (forall i :: |objects| <= i < |objects'| ==>
          objects'[i].parent == InFolder(folderId) && objects'[i].mimeType == BINARY_MIME_TYPE)
  }

  lemma ConfinedTrans(a: seq<RemoteObject>, b: seq<RemoteObject>, c: seq<RemoteObject>, folderId: Id)
    requires ConfinedTo(a, b, folderId) && ConfinedTo(b, c, folderId)
    ensures ConfinedTo(a, c, folderId)
  {
  }

  /** Handling a key of folder `folderId` changes the remote side only inside
      that folder. */
  lemma HandleConfined(
    s: Stores, folderId: Id, remote: Option<RemoteFile>, local: Option<LocalFile>, fails: bool, md5: Bytes -> Digest)
    requires remote.Some? ==> remote.value.id < |s.objects| && LocalPathOf(remote.value).Some?
    requires remote.Some? ==> s.objects[remote.value.id].parent == InFolder(folderId)
    ensures ConfinedTo(s.objects, HandleFileSync(s, folderId, remote, local, fails, md5).objects, folderId)
  {
    var s' := HandleFileSync(s, folderId, remote, local, fails, md5);
    if !fails {
      match Decide(remote, local, md5)
      case UploadNew =>
        ConfinedAppend(s.objects, Upload(folderId, local.value, md5), folderId);
      case UploadUpdate =>
        var id := remote.value.id;
        ConfinedReplace(s.objects, id, Updated(s.objects[id], local.value.lastModified, local.value.content, md5), folderId);
      case _ =>
        ConfinedRefl(s.objects, folderId);
    } else {
      ConfinedRefl(s.objects, folderId);
    }
  }

  lemma ConfinedRefl(objects: seq<RemoteObject>, folderId: Id)
    ensures ConfinedTo(objects, objects, folderId)
  {
  }

  lemma ConfinedAppend(objects: seq<RemoteObject>, o: RemoteObject, folderId: Id)
    requires o.parent == InFolder(folderId) && o.mimeType == BINARY_MIME_TYPE
    ensures ConfinedTo(objects, objects + [o], folderId)
  {
  }

  lemma ConfinedReplace(objects: seq<RemoteObject>, i: Id, o: RemoteObject, folderId: Id)
    requires i < |objects| && o.name == objects[i].name && o.mimeType == objects[i].mimeType
    requires o.parent == InFolder(folderId) && objects[i].parent == InFolder(folderId)
    ensures ConfinedTo(objects, objects[i := o], folderId)
  {
  }

  /** A folder pass changes the remote side only inside its folder. */
  lemma {:induction false} SyncPassConfined(
    s0: Stores, folderId: Id, lidx: map<Path, LocalFile>, order: seq<Path>, failing: set<Path>, md5: Bytes -> Digest)
    ensures ConfinedTo(s0.objects,
      SyncPass(s0, folderId, RemoteIndex(s0.objects, folderId), lidx, order, failing, md5).objects, folderId)
  {
    var ridx := RemoteIndex(s0.objects, folderId);
    if order != [] {
      var prefix, k := order[..|order| - 1], order[|order| - 1];
      SyncPassConfined(s0, folderId, lidx, prefix, failing, md5);
      var mid := SyncPass(s0, folderId, ridx, lidx, prefix, failing, md5);
      var remote := Get(ridx, k);
      if remote.Some? {
        assert mid.objects[remote.value.id].parent == InFolder(folderId);
      }
      HandleConfined(mid, folderId, remote, Get(lidx, k), k in failing, md5);
      ConfinedTrans(s0.objects, mid.objects,
        HandleFileSync(mid, folderId, remote, Get(lidx, k), k in failing, md5).objects, folderId);
    }
  }

  /** Changes confined to one folder leave the listing of every other folder
      as it was. */
  lemma {:induction false} ConfinedListingUpTo(
    objects: seq<RemoteObject>, objects': seq<RemoteObject>, folderId: Id, other: Id, n: nat)
    requires ConfinedTo(objects, objects', folderId) && other != folderId && n <= |objects'|
    ensures ListingUpTo(objects', other, n) == ListingUpTo(objects, other, Min(n, |objects|))
  {
    if n > 0 {
      ConfinedListingUpTo(objects, objects', folderId, other, n - 1);
      if n - 1 < |objects| {
        assert objects'[n - 1] != objects[n - 1] ==> !Listed(objects'[n - 1], other) && !Listed(objects[n - 1], other);
      } else {
        assert !Listed(objects'[n - 1], other);
      }
    }
  }

  lemma ConfinedRemoteIndex(objects: seq<RemoteObject>, objects': seq<RemoteObject>, folderId: Id, other: Id)
    requires ConfinedTo(objects, objects', folderId) && other != folderId
    ensures RemoteIndex(objects', other) == RemoteIndex(objects, other)
  {
    ConfinedListingUpTo(objects, objects', folderId, other, |objects'|);
    assert Listing(objects', other) == Listing(objects, other);
  }

  /** Changes confined to a folder leave every folder query as it was. */
  lemma {:induction false} ConfinedFoldersUpTo(
    objects: seq<RemoteObject>, objects': seq<RemoteObject>, folderId: Id, name: string, n: nat)
    requires ConfinedTo(objects, objects', folderId) && n <= |objects'|
    ensures FoldersNamedUpTo(objects', name, n) == FoldersNamedUpTo(objects, name, Min(n, |objects|))
  {
    if n > 0 {
      ConfinedFoldersUpTo(objects, objects', folderId, name, n - 1);
      var earlier := FoldersNamedUpTo(objects', name, n - 1);
      if n - 1 < |objects| {
        assert IsFolderNamed(objects'[n - 1], name) == IsFolderNamed(objects[n - 1], name);
        assert Min(n, |objects|) == n;
      } else {
        assert !IsFolderNamed(objects'[n - 1], name);
        assert FoldersNamedUpTo(objects', name, n) == earlier;
      }
    }
  }

  lemma ConfinedFolders(objects: seq<RemoteObject>, objects': seq<RemoteObject>, folderId: Id, name: string)
    requires ConfinedTo(objects, objects', folderId)
    ensures FoldersNamed(objects', name) == FoldersNamed(objects, name)
  {
    ConfinedFoldersUpTo(objects, objects', folderId, name, |objects'|);
  }

  /** Creating a folder changes no file listing. */
  lemma NewFolderKeepsIndexes(objects: seq<RemoteObject>, name: string, md5: Bytes -> Digest, folderId: Id)
    ensures RemoteIndex(objects + [NewFolder(name, md5)], folderId) == RemoteIndex(objects, folderId)
  {
    RemoteIndexAppend(objects, NewFolder(name, md5), folderId);
  }
}
