/** The last-writer-wins policy of a folder pass: when a local and a remote
    file with the same key count as different (`areFileDifferent`), and which
    of the five actions a key gets (the branch in `handleFileSync`). */
module SyncPolicy {
  import opened Common
  import opened Drive
  import opened FileIndex

  /** Equal modification times mean "the same"; otherwise different sizes mean
      "different"; otherwise the MD5 digests decide. `md5` is MD5 (RFC 1321)
      as `calculateMd5` computes it. */
  predicate AreFileDifferent(remote: RemoteFile, local: LocalFile, md5: Bytes -> Digest) {
    if remote.modifiedTime == local.lastModified then false
    else if remote.size != |local.content| then true
    else remote.md5Checksum != md5(local.content)
  }

  datatype Action = DownloadNew | UploadNew | UploadUpdate | DownloadUpdate | NoAction

  /** The action for one key, from the remote and the local file stored under
      it (either may be absent). A transfer only ever needs the files it
      moves. */
  function Decide(remote: Option<RemoteFile>, local: Option<LocalFile>, md5: Bytes -> Digest): (a: Action)
    ensures a in {DownloadNew, UploadUpdate, DownloadUpdate} ==> remote.Some?
    ensures a in {UploadNew, UploadUpdate, DownloadUpdate} ==> local.Some?
  {
    if remote.Some? && local.None? then DownloadNew
    else if remote.None? && local.Some? then UploadNew
    else if remote.Some? && local.Some? then
      if AreFileDifferent(remote.value, local.value, md5) then
        if remote.value.modifiedTime < local.value.lastModified then UploadUpdate
        else if remote.value.modifiedTime > local.value.lastModified then DownloadUpdate
        else NoAction
      else NoAction
    else NoAction
  }

  /** The sameness test is ordered: the timestamps are looked at first, the
      sizes only when the timestamps differ, the digests only when the sizes
      agree too. */
  lemma SamenessIsOrdered(remote: RemoteFile, local: LocalFile, md5: Bytes -> Digest)
    ensures remote.modifiedTime == local.lastModified ==> !AreFileDifferent(remote, local, md5)
    ensures remote.modifiedTime != local.lastModified && remote.size != |local.content|
        ==> AreFileDifferent(remote, local, md5)
    ensures remote.modifiedTime != local.lastModified && remote.size == |local.content|
        ==> (AreFileDifferent(remote, local, md5) <==> remote.md5Checksum != md5(local.content))
  {
  }

  /** A key present on one side only is copied to the other side. */
  lemma OneSidedKeysAreCopied(remote: Option<RemoteFile>, local: Option<LocalFile>, md5: Bytes -> Digest)
    ensures Decide(remote, local, md5) == DownloadNew <==> remote.Some? && local.None?
    ensures Decide(remote, local, md5) == UploadNew <==> remote.None? && local.Some?
  {
  }

  /** When both sides hold a file, an update is made exactly when the files
      differ and their timestamps do, and it goes from the newer side to the
      older one. */
  lemma NewerSideWins(remote: RemoteFile, local: LocalFile, md5: Bytes -> Digest)
    ensures Decide(Some(remote), Some(local), md5) == UploadUpdate
        <==> AreFileDifferent(remote, local, md5) && remote.modifiedTime < local.lastModified
    ensures Decide(Some(remote), Some(local), md5) == DownloadUpdate
        <==> AreFileDifferent(remote, local, md5) && remote.modifiedTime > local.lastModified
    ensures Decide(Some(remote), Some(local), md5) == NoAction <==> !AreFileDifferent(remote, local, md5)
  {
  }

  /** Timestamps that differ while the size and the digest agree move
      nothing. */
  lemma SameContentMovesNothing(remote: RemoteFile, local: LocalFile, md5: Bytes -> Digest)
    requires remote.size == |local.content| && remote.md5Checksum == md5(local.content)
    ensures Decide(Some(remote), Some(local), md5) == NoAction
  {
  }
}
