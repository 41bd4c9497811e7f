/** The two indexes a folder pass joins: remote files keyed by their
    `localPath` property, local files keyed by their path relative to the
    category root. */
module FileIndex {
  import opened Common
  import opened Drive
  import opened LocalFs

  /** A local file as the pass sees it: its relative path, modification time
      and bytes (its length is the length of `content`). */
  datatype LocalFile = LocalFile(path: Path, lastModified: int, content: Bytes)

  /** The `localPath` property of a remote file, if it has one. */
  function LocalPathOf(f: RemoteFile): Option<Path> {
    if LOCAL_PATH_PROPERTY in f.appProperties then Some(f.appProperties[LOCAL_PATH_PROPERTY]) else None
  }

  /** `buildRemoteFileMap`: drop the files without a `localPath` property and
      key the others by it; a later file replaces an earlier one with the same
      key, as `toMap` does. */
  function BuildRemoteFileMap(files: seq<RemoteFile>): map<Path, RemoteFile> {
    if files == [] then map[]
    else
      var last := files[|files| - 1];
      var earlier := BuildRemoteFileMap(files[..|files| - 1]);
      match LocalPathOf(last)
      case None => earlier
      case Some(k) => earlier[k := last]
  }

  /** Every value of `m` is a file of `files` stored under its own key. */
  ghost predicate KeyedFrom(files: seq<RemoteFile>, m: map<Path, RemoteFile>) {
    forall k :: k in m ==> LocalPathOf(m[k]) == Some(k) && m[k] in files
  }

  /** Every file of `files` with a key has that key in `m`. */
  ghost predicate KeysAll(files: seq<RemoteFile>, m: map<Path, RemoteFile>) {
    forall j :: 0 <= j < |files| && LocalPathOf(files[j]).Some? ==> LocalPathOf(files[j]).value in m
  }

  /** Every file with a key is represented, and every value is a file of the
      listing stored under its own key. */
  lemma {:induction false} RemoteIndexFacts(files: seq<RemoteFile>)
    ensures KeyedFrom(files, BuildRemoteFileMap(files)) && KeysAll(files, BuildRemoteFileMap(files))
  {
    if files != [] {
      var earlier := files[..|files| - 1];
      RemoteIndexFacts(earlier);
      assert forall j :: 0 <= j < |earlier| ==> files[j] == earlier[j];
    }
  }

  lemma BuildRemoteFileMapAppend(files: seq<RemoteFile>, f: RemoteFile)
    ensures BuildRemoteFileMap(files + [f])
         == match LocalPathOf(f) case None => BuildRemoteFileMap(files) case Some(k) => BuildRemoteFileMap(files)[k := f]
  {
    assert (files + [f])[..|files|] == files;
  }

  /** The last file of the listing with a given key is the one the index
      keeps: no later file carries that key. */
  lemma {:induction false} LastOneWins(files: seq<RemoteFile>, k: Path)
    requires k in BuildRemoteFileMap(files)
    ensures exists j :: 0 <= j < |files| && files[j] == BuildRemoteFileMap(files)[k]
             && forall j' :: j < j' < |files| ==> LocalPathOf(files[j']) != Some(k)
  {
    var n := |files|;
    var earlier := files[..n - 1];
    assert files == earlier + [files[n - 1]];
    BuildRemoteFileMapAppend(earlier, files[n - 1]);
    if LocalPathOf(files[n - 1]) == Some(k) {
      assert files[n - 1] == BuildRemoteFileMap(files)[k];
    } else {
      assert BuildRemoteFileMap(files)[k] == BuildRemoteFileMap(earlier)[k];
      LastOneWins(earlier, k);
      var j :| 0 <= j < |earlier| && earlier[j] == BuildRemoteFileMap(earlier)[k]
               && forall j' :: j < j' < |earlier| ==> LocalPathOf(earlier[j']) != Some(k);
      assert files[j] == BuildRemoteFileMap(files)[k];
      assert forall j' :: j < j' < n ==> LocalPathOf(files[j']) != Some(k) by {
        forall j' | j < j' < n ensures LocalPathOf(files[j']) != Some(k) {
          if j' < n - 1 {
            assert files[j'] == earlier[j'];
          }
        }
      }
    }
  }

  /** The index after the file with id `i` is replaced by `f` in the listing. */
  function ReplaceValue(m: map<Path, RemoteFile>, i: Id, f: RemoteFile): (r: map<Path, RemoteFile>)
    ensures r.Keys == m.Keys
  {
    map k | k in m :: if m[k].id == i then f else m[k]
  }

  /** Replacing the file with id `i` by one with the same key replaces it in
      the index and changes nothing else. */
  lemma {:induction false} BuildRemoteFileMapReplace(files: seq<RemoteFile>, i: Id, f: RemoteFile)
    requires forall j :: 0 <= j < |files| && files[j].id == i ==> LocalPathOf(files[j]) == LocalPathOf(f)
    ensures BuildRemoteFileMap(ReplaceId(files, i, f)) == ReplaceValue(BuildRemoteFileMap(files), i, f)
  {
    if files != [] {
      var n := |files|;
      var earlier := files[..n - 1];
      var last := files[n - 1];
      BuildRemoteFileMapReplace(earlier, i, f);
      var last' := if last.id == i then f else last;
      assert ReplaceId(files, i, f) == ReplaceId(earlier, i, f) + [last'];
      BuildRemoteFileMapAppend(ReplaceId(earlier, i, f), last');
      BuildRemoteFileMapAppend(earlier, last);
      assert files == earlier + [last];
      if LocalPathOf(last).Some? {
        ReplaceValueUpdate(BuildRemoteFileMap(earlier), LocalPathOf(last).value, last, i, f);
      }
    }
  }

  /** Replacing after an update is updating with the replaced value. */
  lemma ReplaceValueUpdate(m: map<Path, RemoteFile>, k: Path, v: RemoteFile, i: Id, f: RemoteFile)
    ensures ReplaceValue(m[k := v], i, f) == ReplaceValue(m, i, f)[k := if v.id == i then f else v]
  {
  }

  /** The walk keeps what exists, is not a directory and is not empty. */
  predicate Syncable(e: LocalEntry) {
    !e.isDirectory && |e.content| > 0
  }

  /** `buildLocalFileMap`: the syncable entries of the root, keyed by their
      relative path. */
  function BuildLocalFileMap(entries: map<Path, LocalEntry>): map<Path, LocalFile> {
    map k | k in entries && Syncable(entries[k]) :: LocalFile(k, entries[k].lastModified, entries[k].content)
  }

  /** The local index holds exactly the syncable entries, each under its own
      relative path, with its modification time and bytes. */
  lemma LocalIndexContents(entries: map<Path, LocalEntry>, k: Path)
    ensures k in BuildLocalFileMap(entries) <==> k in entries && !entries[k].isDirectory && |entries[k].content| > 0
    ensures k in BuildLocalFileMap(entries)
        ==> BuildLocalFileMap(entries)[k] == LocalFile(k, entries[k].lastModified, entries[k].content)
  {
  }
}
