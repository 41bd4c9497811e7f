/** The remote store: the application-private space of a Google Drive account
    as the synchroniser sees it. Objects are never removed, and an object's id
    is its position in `objects`, so ids are never reused and a listing
    returns objects in the order they were created. */
module Drive {
  import opened Common

  type Id = nat

  /** The custom property that holds an object's sync key. */
  const LOCAL_PATH_PROPERTY: string := "localPath"
  const BINARY_MIME_TYPE: string := "application/x-binary"
  const FOLDER_MIME_TYPE: string := "application/vnd.google-apps.folder"

  /** Where an object lives: the root of the application-private space, or a folder. */
  datatype Parent = AppDataFolder | InFolder(folderId: Id)

  datatype RemoteObject = RemoteObject(
    name: string,
    parent: Parent,
    mimeType: string,
    trashed: bool,
    appProperties: map<string, string>,
    modifiedTime: int,
    content: Bytes,
    md5Checksum: Digest)

  /** What a file listing reports of an object: the fields id, name, size,
      appProperties, modifiedTime, parents and md5Checksum. */
  datatype RemoteFile = RemoteFile(
    id: Id,
    name: string,
    size: nat,
    appProperties: map<string, string>,
    modifiedTime: int,
    parent: Parent,
    md5Checksum: Digest)

  function Snapshot(id: Id, o: RemoteObject): RemoteFile {
    RemoteFile(id, o.name, |o.content|, o.appProperties, o.modifiedTime, o.parent, o.md5Checksum)
  }

  /** The listing query: in the folder, not trashed, of the binary type. */
  predicate Listed(o: RemoteObject, folderId: Id) {
    o.parent == InFolder(folderId) && !o.trashed && o.mimeType == BINARY_MIME_TYPE
  }

  /** Everything the listing query matches among the first `n` objects, in id order. */
  function ListingUpTo(objects: seq<RemoteObject>, folderId: Id, n: nat): (r: seq<RemoteFile>)
    requires n <= |objects|
  {
    if n == 0 then []
    else
      var earlier := ListingUpTo(objects, folderId, n - 1);
      if Listed(objects[n - 1], folderId) then earlier + [Snapshot(n - 1, objects[n - 1])] else earlier
  }

  /** Every file of a folder that the listing query matches, in id order. */
  function Listing(objects: seq<RemoteObject>, folderId: Id): seq<RemoteFile> {
    ListingUpTo(objects, folderId, |objects|)
  }

  /** Every file of `files` is a current snapshot of an object among the
      first `n` that the listing query matches. */
  ghost predicate ListsSnapshots(objects: seq<RemoteObject>, folderId: Id, files: seq<RemoteFile>, n: nat)
    requires n <= |objects|
  {
    forall j :: 0 <= j < |files| ==>
      files[j].id < n && Listed(objects[files[j].id], folderId) && files[j] == Snapshot(files[j].id, objects[files[j].id])
  }

  ghost predicate IdsIncrease(files: seq<RemoteFile>) {
    forall j, j' :: 0 <= j < j' < |files| ==> files[j].id < files[j'].id
  }

  /** Every object among the first `n` that the query matches has a file in `files`. */
  ghost predicate ListsAll(objects: seq<RemoteObject>, folderId: Id, files: seq<RemoteFile>, n: nat)
    requires n <= |objects|
  {
    forall i :: 0 <= i < n && Listed(objects[i], folderId) ==> exists j :: 0 <= j < |files| && files[j].id == i
  }

  lemma {:induction false} ListingUpToSound(objects: seq<RemoteObject>, folderId: Id, n: nat)
    requires n <= |objects|
    ensures ListsSnapshots(objects, folderId, ListingUpTo(objects, folderId, n), n)
    ensures IdsIncrease(ListingUpTo(objects, folderId, n))
  {
    if n > 0 {
      ListingUpToSound(objects, folderId, n - 1);
      var earlier := ListingUpTo(objects, folderId, n - 1);
      var r := ListingUpTo(objects, folderId, n);
      assert forall j :: 0 <= j < |earlier| ==> r[j] == earlier[j];
      if Listed(objects[n - 1], folderId) {
        assert |r| == |earlier| + 1 && r[|earlier|] == Snapshot(n - 1, objects[n - 1]);
      } else {
        assert r == earlier;
      }
    }
  }

  lemma {:induction false} ListingUpToComplete(objects: seq<RemoteObject>, folderId: Id, n: nat)
    requires n <= |objects|
    ensures ListsAll(objects, folderId, ListingUpTo(objects, folderId, n), n)
  {
    if n > 0 {
      ListingUpToComplete(objects, folderId, n - 1);
      var earlier := ListingUpTo(objects, folderId, n - 1);
      var r := ListingUpTo(objects, folderId, n);
      assert forall j :: 0 <= j < |earlier| ==> r[j] == earlier[j];
      forall i | 0 <= i < n && Listed(objects[i], folderId) ensures exists j :: 0 <= j < |r| && r[j].id == i {
        if i == n - 1 {
          assert r[|earlier|].id == i;
        } else {
          var j :| 0 <= j < |earlier| && earlier[j].id == i;
          assert r[j].id == i;
        }
      }
    }
  }

  /** A listing holds a current snapshot of exactly the objects the query
      matches, each once, in strictly increasing id order. */
  lemma ListingFacts(objects: seq<RemoteObject>, folderId: Id)
    ensures ListsSnapshots(objects, folderId, Listing(objects, folderId), |objects|)
    ensures IdsIncrease(Listing(objects, folderId))
    ensures ListsAll(objects, folderId, Listing(objects, folderId), |objects|)
  {
    ListingUpToSound(objects, folderId, |objects|);
    ListingUpToComplete(objects, folderId, |objects|);
  }

  /** One page of a listing and the token of the next page, if any. A page
      token is modelled as the position in the listing where the page starts. */
  datatype Page = Page(files: seq<RemoteFile>, nextPageToken: Option<nat>)

  /** Where the page a token asks for starts: the first page starts at 0. */
  function PageStart(pageToken: Option<nat>): nat {
    match pageToken case None => 0 case Some(t) => t
  }

  /** What one listing request may return. The server chooses the page's
      length: at most `pageSize` files, and at least one while files remain.
      The page continues the listing where the token points, and a token
      comes back exactly when files remain after it. */
  ghost predicate IsPageOf(listing: seq<RemoteFile>, pageSize: nat, pageToken: Option<nat>, page: Page) {
    var start, end := PageStart(pageToken), PageStart(pageToken) + |page.files|;
    && end <= |listing| && page.files == listing[start..end]
    && |page.files| <= pageSize
    && (start < |listing| ==> |page.files| > 0)
    && page.nextPageToken == (if end < |listing| then Some(end) else None)
  }

  /** The page a server that always fills its pages returns. */
  function FullPage(listing: seq<RemoteFile>, pageSize: nat, pageToken: Option<nat>): (p: Page)
    requires pageSize > 0 && PageStart(pageToken) <= |listing|
    ensures IsPageOf(listing, pageSize, pageToken, p)
  {
    var start := PageStart(pageToken);
    var end := Min(start + pageSize, |listing|);
    Page(listing[start..end], if end < |listing| then Some(end) else None)
  }

  /** The folder query: named `name`, of the folder type, anywhere in the
      application-private space (trashed or not). */
  predicate IsFolderNamed(o: RemoteObject, name: string) {
    o.name == name && o.mimeType == FOLDER_MIME_TYPE
  }

  /** The ids of the first `n` objects that the folder query matches, in id order. */
  function FoldersNamedUpTo(objects: seq<RemoteObject>, name: string, n: nat): (ids: seq<Id>)
    requires n <= |objects|
    ensures forall j :: 0 <= j < |ids| ==> ids[j] < n && IsFolderNamed(objects[ids[j]], name)
    ensures forall i :: 0 <= i < n && IsFolderNamed(objects[i], name) ==> i in ids
    ensures forall j, j' :: 0 <= j < j' < |ids| ==> ids[j] < ids[j']
  {
    if n == 0 then []
    else
      var earlier := FoldersNamedUpTo(objects, name, n - 1);
      if IsFolderNamed(objects[n - 1], name) then earlier + [n - 1] else earlier
  }

  function FoldersNamed(objects: seq<RemoteObject>, name: string): seq<Id> {
    FoldersNamedUpTo(objects, name, |objects|)
  }

  /** The folder that folder creation adds to the application-private root. */
  function NewFolder(name: string, md5: Bytes -> Digest): RemoteObject {
    RemoteObject(name, AppDataFolder, FOLDER_MIME_TYPE, false, map[], 0, [], md5([]))
  }

  /** The file that an upload of `content` adds; Drive computes its checksum. */
  function NewFile(
    parent: Parent, name: string, appProperties: map<string, string>,
    modifiedTime: int, content: Bytes, md5: Bytes -> Digest): RemoteObject
  {
    RemoteObject(name, parent, BINARY_MIME_TYPE, false, appProperties, modifiedTime, content, md5(content))
  }

  /** An object after an update of its content and modification time; its
      name, parent, type and properties are kept. */
  function Updated(o: RemoteObject, modifiedTime: int, content: Bytes, md5: Bytes -> Digest): RemoteObject {
    o.(modifiedTime := modifiedTime, content := content, md5Checksum := md5(content))
  }

  /** Drive computes every object's checksum from its content. */
  ghost predicate ChecksumsMatch(objects: seq<RemoteObject>, md5: Bytes -> Digest) {
    forall i :: 0 <= i < |objects| ==> objects[i].md5Checksum == md5(objects[i].content)
  }

  /** The Drive client calls the synchroniser makes, over the objects of the
      application-private space. */
  class RemoteDrive {
    var objects: seq<RemoteObject>
    /** The number of files a listing returns per page. */
    const pageSize: nat
    /** The digest Drive reports as md5Checksum. */
    const md5: Bytes -> Digest

    ghost predicate Valid()
      reads this
    {
      pageSize > 0 && ChecksumsMatch(objects, md5)
    }

    constructor (objects: seq<RemoteObject>, pageSize: nat, md5: Bytes -> Digest)
      requires pageSize > 0 && ChecksumsMatch(objects, md5)
      ensures Valid()
      ensures this.objects == objects && this.pageSize == pageSize && this.md5 == md5
    {
      this.objects := objects;
      this.pageSize := pageSize;
      this.md5 := md5;
    }

    /** `files().list()` with the listing query for `folderId` and a token
        an earlier page of the same listing returned. Callers may rely only
        on `IsPageOf`: the server may return shorter pages than `pageSize`. */
    method ListFiles(folderId: Id, pageToken: Option<nat>) returns (page: Page)
      requires Valid() && PageStart(pageToken) <= |Listing(objects, folderId)|
      ensures IsPageOf(Listing(objects, folderId), pageSize, pageToken, page)
    {
      page := FullPage(Listing(objects, folderId), pageSize, pageToken);
    }

    /** `files().list()` with the folder query for `name`. */
    method FindFolders(name: string) returns (ids: seq<Id>)
      ensures ids == FoldersNamed(objects, name)
    {
      ids := FoldersNamed(objects, name);
    }

    /** `files().create()` of a folder under the application-private root. */
    method CreateFolder(name: string) returns (id: Id)
      requires Valid()
      modifies this
      ensures Valid()
      ensures id == |old(objects)| && objects == old(objects) + [NewFolder(name, md5)]
    {
      id := |objects|;
      objects := objects + [NewFolder(name, md5)];
    }

    /** `files().create()` of a file with metadata and media content. */
    method CreateFile(
      parent: Parent, name: string, appProperties: map<string, string>,
      modifiedTime: int, content: Bytes) returns (id: Id)
      requires Valid()
      modifies this
      ensures Valid()
      ensures id == |old(objects)|
      ensures objects == old(objects) + [NewFile(parent, name, appProperties, modifiedTime, content, md5)]
    {
      id := |objects|;
      objects := objects + [NewFile(parent, name, appProperties, modifiedTime, content, md5)];
    }

    /** `files().update()` of an existing file's modification time and content. */
    method UpdateFile(id: Id, modifiedTime: int, content: Bytes)
      requires Valid() && id < |objects|
      modifies this
      ensures Valid()
      ensures objects == old(objects)[id := Updated(old(objects)[id], modifiedTime, content, md5)]
    {
      objects := objects[id := Updated(objects[id], modifiedTime, content, md5)];
    }

    /** `files().get(id)` with media download. */
    method Download(id: Id) returns (content: Bytes)
      requires id < |objects|
      ensures content == objects[id].content
    {
      content := objects[id].content;
    }
  }

  /** Creating an object adds it at the end of the listings it matches and
      leaves every other listing as it was. */
  lemma {:induction false} ListingAppend(objects: seq<RemoteObject>, o: RemoteObject, folderId: Id)
    ensures Listing(objects + [o], folderId)
         == Listing(objects, folderId) + (if Listed(o, folderId) then [Snapshot(|objects|, o)] else [])
  {
    ListingUpToPrefix(objects, [o], folderId, |objects|);
  }

  lemma {:induction false} ListingUpToPrefix(objects: seq<RemoteObject>, more: seq<RemoteObject>, folderId: Id, n: nat)
    requires n <= |objects|
    ensures ListingUpTo(objects + more, folderId, n) == ListingUpTo(objects, folderId, n)
  {
    if n > 0 {
      ListingUpToPrefix(objects, more, folderId, n - 1);
      assert (objects + more)[n - 1] == objects[n - 1];
    }
  }

  /** The listing after object `i` is replaced by `o`, where both match the
      query or neither does: the file with id `i`, if listed, is replaced by
      the new snapshot. */
  function ReplaceId(files: seq<RemoteFile>, i: Id, f: RemoteFile): (r: seq<RemoteFile>)
    ensures |r| == |files|
    ensures forall j :: 0 <= j < |r| ==> r[j] == if files[j].id == i then f else files[j]
  {
    seq(|files|, j requires 0 <= j < |files| => if files[j].id == i then f else files[j])
  }

  lemma {:induction false} ListingUpToReplace(objects: seq<RemoteObject>, i: Id, o: RemoteObject, folderId: Id, n: nat)
    requires i < |objects| && n <= |objects|
    requires Listed(o, folderId) == Listed(objects[i], folderId)
    ensures ListingUpTo(objects[i := o], folderId, n) == ReplaceId(ListingUpTo(objects, folderId, n), i, Snapshot(i, o))
  {
    if n > 0 {
      ListingUpToReplace(objects, i, o, folderId, n - 1);
      var before := ListingUpTo(objects, folderId, n - 1);
      if Listed(objects[n - 1], folderId) {
        assert ReplaceId(before + [Snapshot(n - 1, objects[n - 1])], i, Snapshot(i, o))
            == ReplaceId(before, i, Snapshot(i, o)) + [if n - 1 == i then Snapshot(i, o) else Snapshot(n - 1, objects[n - 1])];
      }
    }
  }

  lemma ListingReplace(objects: seq<RemoteObject>, i: Id, o: RemoteObject, folderId: Id)
    requires i < |objects|
    requires Listed(o, folderId) == Listed(objects[i], folderId)
    ensures Listing(objects[i := o], folderId) == ReplaceId(Listing(objects, folderId), i, Snapshot(i, o))
  {
    ListingUpToReplace(objects, i, o, folderId, |objects|);
  }

  /** Replacing an object that a listing does not match, by one it does not
      match either, leaves that listing as it was. */
  lemma ListingReplaceUnlisted(objects: seq<RemoteObject>, i: Id, o: RemoteObject, folderId: Id)
    requires i < |objects|
    requires !Listed(o, folderId) && !Listed(objects[i], folderId)
    ensures Listing(objects[i := o], folderId) == Listing(objects, folderId)
  {
    ListingReplace(objects, i, o, folderId);
    ListingFacts(objects, folderId);
    var l := Listing(objects, folderId);
    forall j | 0 <= j < |l| ensures l[j].id != i {
    }
  }

  /** The folders named `name` after an object is created. */
  lemma {:induction false} FoldersNamedAppend(objects: seq<RemoteObject>, o: RemoteObject, name: string)
    ensures FoldersNamed(objects + [o], name)
         == FoldersNamed(objects, name) + (if IsFolderNamed(o, name) then [|objects|] else [])
  {
    FoldersNamedUpToPrefix(objects, [o], name, |objects|);
  }

  lemma {:induction false} FoldersNamedUpToPrefix(objects: seq<RemoteObject>, more: seq<RemoteObject>, name: string, n: nat)
    requires n <= |objects|
    ensures FoldersNamedUpTo(objects + more, name, n) == FoldersNamedUpTo(objects, name, n)
  {
    if n > 0 {
      FoldersNamedUpToPrefix(objects, more, name, n - 1);
      assert (objects + more)[n - 1] == objects[n - 1];
    }
  }

  /** Replacing an object by one with the same name and type leaves every
      folder query as it was. */
  lemma {:induction false} FoldersNamedUpToReplace(objects: seq<RemoteObject>, i: Id, o: RemoteObject, name: string, n: nat)
    requires i < |objects| && n <= |objects|
    requires o.name == objects[i].name && o.mimeType == objects[i].mimeType
    ensures FoldersNamedUpTo(objects[i := o], name, n) == FoldersNamedUpTo(objects, name, n)
  {
    if n > 0 {
      FoldersNamedUpToReplace(objects, i, o, name, n - 1);
    }
  }
}
