/** The local side: one category root directory, as the recursive walk of the
    file system reports it. Every entry is keyed by its path relative to the
    root. */
module LocalFs {
  import opened Common

  /** What the walk reports of an entry: whether it is a directory, its
      modification time in milliseconds and its bytes (its length is the
      length of `content`). */
  datatype LocalEntry = LocalEntry(isDirectory: bool, lastModified: int, content: Bytes)

  predicate IsDirectoryAt(entries: map<Path, LocalEntry>, path: Path) {
    path in entries && entries[path].isDirectory
  }

  class LocalDirectory {
    var entries: map<Path, LocalEntry>

    constructor (entries: map<Path, LocalEntry>)
      ensures this.entries == entries
    {
      this.entries := entries;
    }

    /** Opens an output stream on `path`, copies `content` into it and then
        sets the file's modification time. Opening a directory for output
        raises, and then nothing changes (`ok` is false). */
    method WriteFile(path: Path, content: Bytes, lastModified: int) returns (ok: bool)
      modifies this
      ensures ok <==> !IsDirectoryAt(old(entries), path)
      ensures entries == if ok then old(entries)[path := LocalEntry(false, lastModified, content)] else old(entries)
    {
      ok := !IsDirectoryAt(entries, path);
      if ok {
        entries := entries[path := LocalEntry(false, lastModified, content)];
      }
    }
  }
}
