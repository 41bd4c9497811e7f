/** Shared vocabulary of the save-file synchroniser: optional values, byte
    contents, relative paths and digests. */
module Common {

  datatype Option<+T> = None | Some(value: T)

  /** The contents of a file. */
  type Bytes = seq<bv8>

  /** A POSIX-style path relative to a category root; it is the sync key. */
  type Path = string

  /** A content digest as it is compared: the hexadecimal text of an MD5
      (RFC 1321) digest. */
  type Digest = string

  function Get<K, V>(m: map<K, V>, k: K): (r: Option<V>)
    ensures r.Some? <==> k in m
    ensures r.Some? ==> r.value == m[k]
  {
    if k in m then Some(m[k]) else None
  }

  function Min(a: int, b: int): int {
    if a <= b then a else b
  }

  predicate NoDuplicates<T(==)>(s: seq<T>) {
    forall i, j :: 0 <= i < j < |s| ==> s[i] != s[j]
  }

  /** Appending an element not yet present keeps a sequence free of duplicates. */
  lemma AppendFresh<T>(s: seq<T>, x: T)
    requires NoDuplicates(s) && x !in s
    ensures NoDuplicates(s + [x])
  {
    forall i, j | 0 <= i < j < |s + [x]|
      ensures (s + [x])[i] != (s + [x])[j]
    {
      if j == |s| {
        assert (s + [x])[i] == s[i];
      }
    }
  }
}
