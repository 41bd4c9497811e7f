/** The synchroniser itself: one `sync` provisions a remote folder per
    category and runs a folder pass for it, then records when it finished. */
module SaveSync {
  import opened Common
  import opened Drive
  import opened LocalFs
  import opened FileIndex
  import opened SyncPolicy
  import opened Reconcile

  /** The names of the remote category folders. */
  const SAVES: string := "saves"
  const STATES: string := "states"
  const STATE_PREVIEWS: string := "state-previews"

  /** `getOrCreateAppDataFolder` as a function of the remote objects: the id
      of the oldest folder called `name`, creating one in the
      application-private root when there is none. */
  function ProvisionFolder(objects: seq<RemoteObject>, name: string, md5: Bytes -> Digest): (r: (Id, seq<RemoteObject>))
    ensures r.0 < |r.1| && IsFolderNamed(r.1[r.0], name)
    ensures forall i :: 0 <= i < r.0 ==> !IsFolderNamed(r.1[i], name)
    ensures r.1 == objects <==> exists i :: 0 <= i < |objects| && IsFolderNamed(objects[i], name)
    ensures r.1 != objects ==> r.1 == objects + [NewFolder(name, md5)]
  {
    var ids := FoldersNamed(objects, name);
    FirstFolderIsOldest(objects, name);
    if |ids| > 0 then (ids[0], objects)
    else
      var objects' := objects + [NewFolder(name, md5)];
      assert |objects'| != |objects|;
      assert forall i :: 0 <= i < |objects| ==> objects'[i] == objects[i];
      (|objects|, objects')
  }

  /** The first answer of the folder query is the oldest folder with that
      name, and there is none when the answer is empty. */
  lemma FirstFolderIsOldest(objects: seq<RemoteObject>, name: string)
    ensures FoldersNamed(objects, name) == [] <==> forall i :: 0 <= i < |objects| ==> !IsFolderNamed(objects[i], name)
    ensures FoldersNamed(objects, name) != [] ==>
      && FoldersNamed(objects, name)[0] < |objects| && IsFolderNamed(objects[FoldersNamed(objects, name)[0]], name)
      && forall i :: 0 <= i < FoldersNamed(objects, name)[0] ==> !IsFolderNamed(objects[i], name)
  {
    var ids := FoldersNamed(objects, name);
    if ids != [] {
      forall i | 0 <= i < ids[0] ensures !IsFolderNamed(objects[i], name) {
      }
    }
  }

  /** Provisioning a folder a second time finds the one the first call
      returned and creates nothing. */
  lemma ProvisionIsIdempotent(objects: seq<RemoteObject>, name: string, md5: Bytes -> Digest)
    ensures var r := ProvisionFolder(objects, name, md5);
      ProvisionFolder(r.1, name, md5) == r
  {
    var r := ProvisionFolder(objects, name, md5);
    var r' := ProvisionFolder(r.1, name, md5);
    assert r'.1 == r.1;
  }

  /** Provisioning a folder called `other` changes neither the folders
      called `name` nor any file listing. */
  lemma ProvisionFrame(objects: seq<RemoteObject>, other: string, name: string, md5: Bytes -> Digest, folderId: Id)
    requires other != name
    ensures var r := ProvisionFolder(objects, other, md5);
      FoldersNamed(r.1, name) == FoldersNamed(objects, name) && RemoteIndex(r.1, folderId) == RemoteIndex(objects, folderId)
  {
    FoldersNamedAppend(objects, NewFolder(other, md5), name);
    NewFolderKeepsIndexes(objects, other, md5, folderId);
  }

  /** Every key of the category folder called `name` is settled: a second
      `sync` of that category would find the same folder and do nothing. */
  ghost predicate CategorySettled(objects: seq<RemoteObject>, entries: map<Path, LocalEntry>, name: string, md5: Bytes -> Digest) {
    forall k :: SettledAt(Stores(objects, entries), ProvisionFolder(objects, name, md5).0, k, md5)
  }

  /** A settled category stays settled while its folder query and its
      folder's index stay as they are. */
  lemma CategoryStaysSettled(
    objects: seq<RemoteObject>, objects': seq<RemoteObject>, entries: map<Path, LocalEntry>, name: string, md5: Bytes -> Digest)
    requires CategorySettled(objects, entries, name, md5)
    requires FoldersNamed(objects', name) == FoldersNamed(objects, name) != []
    requires RemoteIndex(objects', FoldersNamed(objects, name)[0]) == RemoteIndex(objects, FoldersNamed(objects, name)[0])
    ensures CategorySettled(objects', entries, name, md5)
  {
    var id := FoldersNamed(objects, name)[0];
    assert ProvisionFolder(objects', name, md5).0 == id == ProvisionFolder(objects, name, md5).0;
    forall k ensures SettledAt(Stores(objects', entries), id, k, md5) {
      assert SettledAt(Stores(objects, entries), id, k, md5);
      assert RemoteAt(Stores(objects', entries), id, k) == RemoteAt(Stores(objects, entries), id, k);
    }
  }

  /** The category folder called `name` exists in `objects`. */
  ghost predicate HasFolder(objects: seq<RemoteObject>, name: string, md5: Bytes -> Digest) {
    ProvisionFolder(objects, name, md5).1 == objects
  }

  /** A pass over the folder that provisioning `name` returned, which
      settles every key, leaves the category settled. */
  lemma SettledByPass(
    provisioned: seq<RemoteObject>, objects: seq<RemoteObject>, entries: map<Path, LocalEntry>, name: string, md5: Bytes -> Digest)
    requires HasFolder(provisioned, name, md5)
    requires ConfinedTo(provisioned, objects, ProvisionFolder(provisioned, name, md5).0)
    requires forall k :: SettledAt(Stores(objects, entries), ProvisionFolder(provisioned, name, md5).0, k, md5)
    ensures CategorySettled(objects, entries, name, md5) && HasFolder(objects, name, md5)
  {
    var id := ProvisionFolder(provisioned, name, md5).0;
    ConfinedFolders(provisioned, objects, id, name);
    FirstFolderIsOldest(provisioned, name);
    FirstFolderIsOldest(objects, name);
    assert ProvisionFolder(objects, name, md5).0 == id;
  }

  /** Provisioning another category's folder keeps a settled category
      settled. */
  lemma SettledAfterProvision(
    objects: seq<RemoteObject>, entries: map<Path, LocalEntry>, name: string, other: string, md5: Bytes -> Digest)
    requires name != other && HasFolder(objects, name, md5) && CategorySettled(objects, entries, name, md5)
    ensures var objects' := ProvisionFolder(objects, other, md5).1;
      CategorySettled(objects', entries, name, md5) && HasFolder(objects', name, md5)
  {
    var objects' := ProvisionFolder(objects, other, md5).1;
    FirstFolderIsOldest(objects, name);
    var id := FoldersNamed(objects, name)[0];
    ProvisionFrame(objects, other, name, md5, id);
    CategoryStaysSettled(objects, objects', entries, name, md5);
    FirstFolderIsOldest(objects', name);
  }

  /** A pass over another category's folder keeps a settled category
      settled. */
  lemma SettledAfterPass(
    objects: seq<RemoteObject>, objects': seq<RemoteObject>, entries: map<Path, LocalEntry>,
    name: string, folderId: Id, other: string, md5: Bytes -> Digest)
    requires name != other && HasFolder(objects, name, md5) && CategorySettled(objects, entries, name, md5)
    requires folderId < |objects| && IsFolderNamed(objects[folderId], other)
    requires ConfinedTo(objects, objects', folderId)
    ensures CategorySettled(objects', entries, name, md5) && HasFolder(objects', name, md5)
  {
    FirstFolderIsOldest(objects, name);
    var id := FoldersNamed(objects, name)[0];
    assert id != folderId;
    ConfinedRemoteIndex(objects, objects', folderId, id);
    ConfinedFolders(objects, objects', folderId, name);
    CategoryStaysSettled(objects, objects', entries, name, md5);
    FirstFolderIsOldest(objects', name);
  }

  /** Every other category that was settled in `objects`, with its folder
      in place, is still settled, with the same folder, in `objects'`. */
  ghost predicate KeepsOthersSettled(objects: seq<RemoteObject>, objects': seq<RemoteObject>, name: string, md5: Bytes -> Digest) {
    forall entries: map<Path, LocalEntry>, other: string ::
      other != name && HasFolder(objects, other, md5) && CategorySettled(objects, entries, other, md5) ==>
        CategorySettled(objects', entries, other, md5) && HasFolder(objects', other, md5)
  }

  /** Provisioning the folder of category `name` and then a pass over it
      keep every other settled category settled. */
  lemma CategoryStepKeepsOthers(
    objects: seq<RemoteObject>, provisioned: seq<RemoteObject>, objects': seq<RemoteObject>, folderId: Id, name: string,
    md5: Bytes -> Digest)
    requires (folderId, provisioned) == ProvisionFolder(objects, name, md5)
    requires ConfinedTo(provisioned, objects', folderId)
    ensures KeepsOthersSettled(objects, objects', name, md5)
  {
    forall entries: map<Path, LocalEntry>, other: string |
      other != name && HasFolder(objects, other, md5) && CategorySettled(objects, entries, other, md5)
      ensures CategorySettled(objects', entries, other, md5) && HasFolder(objects', other, md5)
    {
      SettledAfterProvision(objects, entries, other, name, md5);
      SettledAfterPass(provisioned, objects', entries, other, folderId, name, md5);
    }
  }

  /** The categories synced after "saves" and "states" keep those two
      settled. */
  lemma EarlierCategoriesStaySettled(
    afterSaves: seq<RemoteObject>, afterStates: seq<RemoteObject>, objects: seq<RemoteObject>,
    savesEntries: map<Path, LocalEntry>, statesEntries: map<Path, LocalEntry>, md5: Bytes -> Digest)
    requires HasFolder(afterSaves, SAVES, md5) && CategorySettled(afterSaves, savesEntries, SAVES, md5)
    requires HasFolder(afterStates, STATES, md5) && CategorySettled(afterStates, statesEntries, STATES, md5)
    requires KeepsOthersSettled(afterSaves, afterStates, STATES, md5)
    requires KeepsOthersSettled(afterStates, objects, STATE_PREVIEWS, md5)
    ensures CategorySettled(objects, savesEntries, SAVES, md5) && CategorySettled(objects, statesEntries, STATES, md5)
  {
    assert CategorySettled(afterStates, savesEntries, SAVES, md5) && HasFolder(afterStates, SAVES, md5);
  }

  /** One category of `sync` on values, from `s` to `s'`: the category's
      folder is provisioned; then, unless the listing raises, a folder pass
      visits every key of both indexes once, in `order`. */
  ghost predicate CategoryRan(
    s: Stores, s': Stores, name: string, listingFails: bool, order: seq<Path>, failing: set<Path>, md5: Bytes -> Digest)
  {
    var folder := ProvisionFolder(s.objects, name, md5);
    var provisioned := Stores(folder.1, s.entries);
    if listingFails then s' == provisioned
    else CoversPass(provisioned, folder.0, order) && s' == PassFrom(provisioned, folder.0, order, failing, md5)
  }

  /** What one completed category achieves: in its folder, every key whose
      action did not raise holds the newer side's version on both sides and
      is settled, and every key whose action raised is as it was after
      provisioning. */
  lemma CategoryRanReconciles(
    s: Stores, s': Stores, name: string, order: seq<Path>, failing: set<Path>, md5: Bytes -> Digest, k: Path)
    requires CategoryRan(s, s', name, false, order, failing, md5)
    ensures var folder := ProvisionFolder(s.objects, name, md5);
      if k in failing then UnchangedAt(Stores(folder.1, s.entries), s', folder.0, k)
      else ReconciledAt(Stores(folder.1, s.entries), s', folder.0, k, md5) && SettledAt(s', folder.0, k, md5)
  {
    var folder := ProvisionFolder(s.objects, name, md5);
    var provisioned := Stores(folder.1, s.entries);
    SyncPassOutcome(provisioned, folder.0, order, failing, md5);
    if k !in failing && k !in order {
      // a key outside both indexes has nothing to do, before and after
      assert k !in PassKeys(provisioned, folder.0);
      assert UnchangedAt(provisioned, s', folder.0, k);
      assert RemoteAt(provisioned, folder.0, k).None? && LocalAt(provisioned, k).None?;
    }
  }

  /** What goes wrong during one `sync`: the categories whose listing
      raises, and the category and key of every action that raises. */
  datatype Faults = Faults(brokenListings: set<string>, failingActions: set<(string, Path)>)

  function FailingIn(faults: Faults, category: string): set<Path> {
    set p | p in faults.failingActions && p.0 == category :: p.1
  }

  /** How `sync` ends: without an account it returns early, a raising
      listing ends it with that category's error, otherwise it completes. */
  datatype SyncResult = NoAccount | Synced | Raised(category: string)

  class SaveSyncManager {
    /** When the last complete `sync` finished (milliseconds). */
    var lastSyncTimestamp: int
    const saves: LocalDirectory
    const states: LocalDirectory
    const statePreviews: LocalDirectory
    /** MD5 as `calculateMd5` computes it for local files. */
    const md5: Bytes -> Digest

    ghost predicate Valid()
      reads this
    {
      saves != states && saves != statePreviews && states != statePreviews
    }

    constructor (saves: LocalDirectory, states: LocalDirectory, statePreviews: LocalDirectory, md5: Bytes -> Digest)
      requires saves != states && saves != statePreviews && states != statePreviews
      ensures Valid() && lastSyncTimestamp == 0
      ensures this.saves == saves && this.states == states && this.statePreviews == statePreviews && this.md5 == md5
    {
      lastSyncTimestamp := 0;
      this.saves := saves;
      this.states := states;
      this.statePreviews := statePreviews;
      this.md5 := md5;
    }

    /** `getRemoteFiles`: requests pages until no next-page token comes
        back. Whatever page lengths the server chooses, the files are the
        folder's whole listing, in order; at least one request is made, and
        every request but the last brings at least one file. */
    method GetRemoteFiles(drive: RemoteDrive, folderId: Id) returns (files: seq<RemoteFile>, requests: nat)
      requires drive.Valid()
      ensures files == Listing(drive.objects, folderId)
      ensures requests >= 1 && |files| <= requests * drive.pageSize
      ensures |files| > 0 ==> requests <= |files|
      ensures |files| == 0 ==> requests == 1
    {
      ghost var listing := Listing(drive.objects, folderId);
      files, requests := [], 0;
      var token: Option<nat> := None;
      var more := true;
      while more
        invariant more && token.None? ==> files == [] && requests == 0
        invariant more && token.Some? ==>
          && token.value == |files| < |listing| && files == listing[..|files|]
          && 1 <= requests <= |files| && |files| <= requests * drive.pageSize
        invariant !more ==> files == listing && requests >= 1 && |listing| <= requests * drive.pageSize
                             && (|listing| > 0 ==> requests <= |listing|) && (|listing| == 0 ==> requests == 1)
        decreases if more then (if token.Some? then |listing| - token.value else |listing| + 1) else 0
      {
        var page := drive.ListFiles(folderId, token);
        assert (requests + 1) * drive.pageSize == requests * drive.pageSize + drive.pageSize;
        assert files + page.files == listing[..|files| + |page.files|];
        files := files + page.files;
        requests := requests + 1;
        token := page.nextPageToken;
        more := token.Some?;
      }
    }

    /** `getOrCreateAppDataFolder`. */
    method GetOrCreateAppDataFolder(drive: RemoteDrive, name: string) returns (id: Id)
      requires drive.Valid() && drive.md5 == md5
      modifies drive
      ensures drive.Valid()
      ensures (id, drive.objects) == ProvisionFolder(old(drive.objects), name, md5)
    {
      var ids := drive.FindFolders(name);
      if |ids| > 0 {
        id := ids[0];
      } else {
        FoldersNamedAppend(drive.objects, NewFolder(name, md5), name);
        id := drive.CreateFolder(name);
      }
    }

    /** `downloadToLocal`: an empty remote file is not downloaded; otherwise
        its bytes go to `path`, stamped with its modification time. */
    method DownloadToLocal(drive: RemoteDrive, remote: RemoteFile, dir: LocalDirectory, path: Path)
      requires remote.id < |drive.objects|
      modifies dir
      ensures Stores(drive.objects, dir.entries) == Reconcile.DownloadToLocal(Stores(drive.objects, old(dir.entries)), remote, path)
    {
      if remote.size == 0 {
        return;
      }
      var content := drive.Download(remote.id);
      var written := dir.WriteFile(path, content, remote.modifiedTime);
    }

    /** `onRemoteOnly`: download to the path the file's `localPath` names. */
    method OnRemoteOnly(dir: LocalDirectory, remote: RemoteFile, drive: RemoteDrive)
      requires remote.id < |drive.objects| && LocalPathOf(remote).Some?
      modifies dir
      ensures Stores(drive.objects, dir.entries)
           == Reconcile.DownloadToLocal(Stores(drive.objects, old(dir.entries)), remote, LocalPathOf(remote).value)
    {
      DownloadToLocal(drive, remote, dir, LocalPathOf(remote).value);
    }

    /** `onRemoteUpdated`: download over the local file. */
    method OnRemoteUpdated(drive: RemoteDrive, remote: RemoteFile, local: LocalFile, dir: LocalDirectory)
      requires remote.id < |drive.objects|
      modifies dir
      ensures Stores(drive.objects, dir.entries) == Reconcile.DownloadToLocal(Stores(drive.objects, old(dir.entries)), remote, local.path)
    {
      DownloadToLocal(drive, remote, dir, local.path);
    }

    /** `onLocalOnly`: create the file in the category folder. */
    method OnLocalOnly(folderId: Id, local: LocalFile, drive: RemoteDrive)
      requires drive.Valid() && drive.md5 == md5
      modifies drive
      ensures drive.Valid()
      ensures drive.objects == old(drive.objects) + [Upload(folderId, local, md5)]
    {
      var id := drive.CreateFile(InFolder(folderId), FileName(local.path), map[LOCAL_PATH_PROPERTY := local.path],
                                 local.lastModified, local.content);
    }

    /** `onLocalUpdated`: replace the remote file's content and time. */
    method OnLocalUpdated(local: LocalFile, drive: RemoteDrive, remote: RemoteFile)
      requires drive.Valid() && drive.md5 == md5 && remote.id < |drive.objects|
      modifies drive
      ensures drive.Valid()
      ensures drive.objects == old(drive.objects)[remote.id := Updated(old(drive.objects)[remote.id], local.lastModified, local.content, md5)]
    {
      drive.UpdateFile(remote.id, local.lastModified, local.content);
    }

    /** `handleFileSync`: the branch on which side holds the key, whether the
        files differ and which is newer; when the action raises (`fails`),
        `runCatching` swallows the error and nothing has changed. */
    method HandleFileSync(
      drive: RemoteDrive, folderId: Id, dir: LocalDirectory,
      remote: Option<RemoteFile>, local: Option<LocalFile>, fails: bool)
      requires drive.Valid() && drive.md5 == md5
      requires remote.Some? ==> remote.value.id < |drive.objects| && LocalPathOf(remote.value).Some?
      modifies drive, dir
      ensures drive.Valid()
      ensures Stores(drive.objects, dir.entries)
           == Reconcile.HandleFileSync(Stores(old(drive.objects), old(dir.entries)), folderId, remote, local, fails, md5)
    {
      if fails {
        return;
      }
      if remote.Some? && local.None? {
        OnRemoteOnly(dir, remote.value, drive);
      } else if remote.None? && local.Some? {
        OnLocalOnly(folderId, local.value, drive);
      } else if remote.Some? && local.Some? {
        if AreFileDifferent(remote.value, local.value, md5) {
          if remote.value.modifiedTime < local.value.lastModified {
            OnLocalUpdated(local.value, drive, remote.value);
          } else if remote.value.modifiedTime > local.value.lastModified {
            OnRemoteUpdated(drive, remote.value, local.value, dir);
          }
        }
      }
    }

    /** `syncLocalAndRemoteFolder`: list the folder, index both sides, and
        handle every key of either index once. When the listing raises
        (`listingFails`) nothing has changed. Otherwise the new state is the
        folder pass over the keys in the order they were visited, so every
        key is reconciled, and, when no action raised, settled. */
    method SyncLocalAndRemoteFolder(
      drive: RemoteDrive, folderId: Id, dir: LocalDirectory, listingFails: bool, failing: set<Path>)
      returns (completed: bool, ghost order: seq<Path>)
      requires drive.Valid() && drive.md5 == md5
      modifies drive, dir
      ensures drive.Valid()
      ensures completed == !listingFails
      ensures !completed ==> drive.objects == old(drive.objects) && dir.entries == old(dir.entries)
      ensures completed ==> CoversPass(Stores(old(drive.objects), old(dir.entries)), folderId, order)
      ensures completed ==>
        Stores(drive.objects, dir.entries) == PassFrom(Stores(old(drive.objects), old(dir.entries)), folderId, order, failing, md5)
      ensures completed ==> ConfinedTo(old(drive.objects), drive.objects, folderId)
      ensures completed && failing == {} ==> forall k :: SettledAt(Stores(drive.objects, dir.entries), folderId, k, md5)
    {
      order := [];
      if listingFails {
        return false, order;
      }
      completed := true;
      ghost var s0 := Stores(drive.objects, dir.entries);
      var files, _ := GetRemoteFiles(drive, folderId);
      var remoteFiles := BuildRemoteFileMap(files);
      var localFiles := BuildLocalFileMap(dir.entries);
      assert remoteFiles == RemoteIndex(s0.objects, folderId);
      assert UsableIndex(remoteFiles, |s0.objects|);
      var keys := remoteFiles.Keys + localFiles.Keys;
      ghost var allKeys := keys;
      assert allKeys == PassKeys(s0, folderId);
      while keys != {}
        invariant drive.Valid()
        invariant NoDuplicates(order)
        invariant forall k :: k in order ==> k !in keys
        invariant forall k :: k in allKeys <==> k in order || k in keys
        invariant Stores(drive.objects, dir.entries) == SyncPass(s0, folderId, remoteFiles, localFiles, order, failing, md5)
        decreases keys
      {
        var k :| k in keys;
        HandleFileSync(drive, folderId, dir, Get(remoteFiles, k), Get(localFiles, k), k in failing);
        SyncPassStep(s0, folderId, remoteFiles, localFiles, order, k, failing, md5);
        AppendFresh(order, k);
        order := order + [k];
        keys := keys - {k};
      }
      assert CoversPass(s0, folderId, order) by {
        forall k ensures k in order <==> k in PassKeys(s0, folderId) {
          assert k in allKeys <==> k in order || k in keys;
        }
      }
      CompletePassOutcome(s0, folderId, order, failing, md5);
    }

    /** One category of `sync`: `syncLocalAndRemoteFolder` on the folder
        `getOrCreateAppDataFolder(name)` returns. The folder is provisioned
        even when the listing then raises. */
    method SyncCategory(drive: RemoteDrive, name: string, dir: LocalDirectory, listingFails: bool, failing: set<Path>)
      returns (done: bool, ghost order: seq<Path>)
      requires drive.Valid() && drive.md5 == md5
      modifies drive, dir
      ensures drive.Valid()
      ensures done == !listingFails
      ensures CategoryRan(Stores(old(drive.objects), old(dir.entries)), Stores(drive.objects, dir.entries),
                          name, listingFails, order, failing, md5)
      ensures done ==> KeepsOthersSettled(old(drive.objects), drive.objects, name, md5)
      ensures done && failing == {} ==> CategorySettled(drive.objects, dir.entries, name, md5) && HasFolder(drive.objects, name, md5)
    {
      ghost var before := drive.objects;
      var id := GetOrCreateAppDataFolder(drive, name);
      ProvisionIsIdempotent(before, name, md5);
      ghost var provisioned := drive.objects;
      done, order := SyncLocalAndRemoteFolder(drive, id, dir, listingFails, failing);
      if done {
        CategoryStepKeepsOthers(before, provisioned, drive.objects, id, name, md5);
        if failing == {} {
          SettledByPass(provisioned, drive.objects, dir.entries, name, md5);
        }
      }
    }

    /** `sync`: without an account nothing happens; otherwise "saves", and
        with `includeStates` also "states" and "state-previews", are synced
        in turn, each as `CategoryRan` describes, starting from the remote
        store the previous category left (`afterSaves`, `afterStates`) and
        visiting its keys in the order given back. A raising listing ends
        the sync there; the completion time is recorded only when every
        category completed. When no action raised either, every category
        synced is left settled. */
    method Sync(drive: RemoteDrive?, includeStates: bool, now: int, faults: Faults)
      returns (result: SyncResult, ghost afterSaves: seq<RemoteObject>, ghost afterStates: seq<RemoteObject>,
               ghost savesOrder: seq<Path>, ghost statesOrder: seq<Path>, ghost previewsOrder: seq<Path>)
      requires Valid()
      requires drive != null ==> drive.Valid() && drive.md5 == md5
      modifies this, drive, saves, states, statePreviews
      ensures drive != null ==> drive.Valid()
      ensures drive == null ==> result == NoAccount && unchanged(this, saves, states, statePreviews)
      ensures drive != null ==>
        result == (if SAVES in faults.brokenListings then Raised(SAVES)
        else if includeStates && STATES in faults.brokenListings then Raised(STATES)
        else if includeStates && STATE_PREVIEWS in faults.brokenListings then Raised(STATE_PREVIEWS)
        else Synced)
      ensures lastSyncTimestamp == if result == Synced then now else old(lastSyncTimestamp)
      ensures drive != null ==>
        CategoryRan(Stores(old(drive.objects), old(saves.entries)), Stores(afterSaves, saves.entries),
                    SAVES, SAVES in faults.brokenListings, savesOrder, FailingIn(faults, SAVES), md5)
      ensures drive != null && includeStates && result != Raised(SAVES) ==>
        CategoryRan(Stores(afterSaves, old(states.entries)), Stores(afterStates, states.entries),
                    STATES, STATES in faults.brokenListings, statesOrder, FailingIn(faults, STATES), md5)
      ensures drive != null && includeStates && result != Raised(SAVES) && result != Raised(STATES) ==>
        CategoryRan(Stores(afterStates, old(statePreviews.entries)), Stores(drive.objects, statePreviews.entries),
                    STATE_PREVIEWS, STATE_PREVIEWS in faults.brokenListings, previewsOrder, FailingIn(faults, STATE_PREVIEWS), md5)
      ensures drive != null && (!includeStates || result == Raised(SAVES)) ==>
        drive.objects == afterSaves && unchanged(states, statePreviews)
      ensures drive != null && result == Raised(STATES) ==> drive.objects == afterStates && unchanged(statePreviews)
      ensures result == Synced && faults.failingActions == {} ==>
        && CategorySettled(drive.objects, saves.entries, SAVES, md5)
        && (includeStates ==> CategorySettled(drive.objects, states.entries, STATES, md5)
                              && CategorySettled(drive.objects, statePreviews.entries, STATE_PREVIEWS, md5))
    {
      afterSaves, afterStates, savesOrder, statesOrder, previewsOrder := [], [], [], [], [];
      if drive == null {
        result := NoAccount;
        return;
      }
      var done;
      done, savesOrder := SyncCategory(drive, SAVES, saves, SAVES in faults.brokenListings, FailingIn(faults, SAVES));
      afterSaves, afterStates := drive.objects, drive.objects;
      if !done {
        result := Raised(SAVES);
        return;
      }
      if includeStates {
        done, statesOrder := SyncCategory(drive, STATES, states, STATES in faults.brokenListings, FailingIn(faults, STATES));
        afterStates := drive.objects;
        if !done {
          result := Raised(STATES);
          return;
        }
        done, previewsOrder := SyncCategory(
          drive, STATE_PREVIEWS, statePreviews, STATE_PREVIEWS in faults.brokenListings, FailingIn(faults, STATE_PREVIEWS));
        if !done {
          result := Raised(STATE_PREVIEWS);
          return;
        }
        if faults.failingActions == {} {
          EarlierCategoriesStaySettled(afterSaves, afterStates, drive.objects, saves.entries, states.entries, md5);
        }
      }
      lastSyncTimestamp := now;
      result := Synced;
    }
  }
}
