/**
 * Writing a file atomically: the bytes go to a temp file, which is renamed over
 * the target only if the size and hash are the promised ones.
 */
module FileOps {
  import opened Wrappers
  import opened Bytes

  /** Where a path leads once confined to the home directory, or why it may not be used. */
  datatype Located = Target(target: string) | Refused(code: string)

  type Locate = string -> Located

  datatype WriteResult = Written(size: nat, sha256: string) | WriteFailed(code: string)

  /** The temp file after one more chunk, unless that is more than was promised. */
  function TakeChunk(size: nat, temp: Bytes, chunk: Bytes): Option<Bytes> {
    if |temp| + |chunk| > size then None else Some(temp + chunk)
  }

  predicate Matches(size: nat, sha256: string, temp: Bytes, hash: Hash) {
    |temp| == size && hash(temp) == sha256
  }

  class FileSystem {
    var files: map<string, Bytes>
    var temps: map<string, Bytes>

    constructor (files: map<string, Bytes>)
      ensures this.files == files && this.temps == map[]
    {
      this.files, this.temps := files, map[];
    }

    /** The loop over the source: feeds the temp file until it is done or something fails. */
    method TakeAll(size: nat, source: seq<Bytes>, temp: string, ioFails: nat -> bool) returns (failure: Option<string>)
      requires temp in temps && temps[temp] == []
      modifies this`temps
      ensures temp in temps && temps - {temp} == old(temps) - {temp}
      ensures failure.None? <==> |Flatten(source)| <= size && forall k :: 0 <= k < |source| ==> !ioFails(k)
      ensures failure.None? ==> temps[temp] == Flatten(source)
      ensures failure.Some? && (forall k :: 0 <= k < |source| ==> !ioFails(k)) ==> failure == Some("mismatch")
    {
      failure := None;
      var k := 0;
      while k < |source|
        invariant 0 <= k <= |source|
        invariant temp in temps && temps - {temp} == old(temps) - {temp}
        invariant temps[temp] == Flatten(source[..k]) && |temps[temp]| <= size
        invariant forall j :: 0 <= j < k ==> !ioFails(j)
      {
        var taken := TakeChunk(size, temps[temp], source[k]);
        FlattenOne(source[..k], source[k]);
        assert source[..k + 1] == source[..k] + [source[k]];
        FlattenPrefix(source, k + 1);
        if taken.None? {
          return Some("mismatch");
        }
        if ioFails(k) {
          return Some("failed");
        }
        temps := temps[temp := taken.value];
        k := k + 1;
      }
      assert source[..k] == source;
    }

    /**
     * Writes what `source` yields before it ends (or throws `thrown`). The disk
     * may fail at any chunk (`ioFails(k)`) or at the end (`ioFails(|source|)`).
     */
    method WriteAtomically(path: string, size: nat, sha256: string, source: seq<Bytes>, thrown: Option<string>,
                           temp: string, hash: Hash, locate: Locate, ioFails: nat -> bool)
      returns (r: WriteResult)
      requires temp !in temps
      modifies this
      ensures temps == old(temps)
      ensures r.Written? <==>
                && size <= 50 * 1024 * 1024 && locate(path).Target? && thrown.None?
                && |Flatten(source)| == size && hash(Flatten(source)) == sha256
                && forall k :: 0 <= k <= |source| ==> !ioFails(k)
      ensures files == if r.Written? then old(files)[locate(path).target := Flatten(source)] else old(files)
      ensures r.Written? ==> r == Written(size, sha256)
      ensures size > 50 * 1024 * 1024 ==> r == WriteFailed("too_large")
      ensures size <= 50 * 1024 * 1024 && locate(path).Refused? ==> r == WriteFailed(locate(path).code)
      ensures size <= 50 * 1024 * 1024 && locate(path).Target? && (forall k :: 0 <= k <= |source| ==> !ioFails(k)) && !r.Written? ==>
                r == WriteFailed(if |Flatten(source)| <= size && thrown.Some? then thrown.value else "mismatch")
    {
      if size > MAX_FILE_BYTES {
        return WriteFailed("too_large");
      }
      var located := locate(path);
      if located.Refused? {
        return WriteFailed(located.code);
      }
      temps := temps[temp := []];
      var failure := TakeAll(size, source, temp, ioFails);
      if failure.None? && thrown.Some? {
        failure := thrown;
      } else if failure.None? && !Matches(size, sha256, temps[temp], hash) {
        failure := Some("mismatch");
      } else if failure.None? && ioFails(|source|) {
        failure := Some("failed");
      }
      if failure.Some? {
        temps := temps - {temp};
        return WriteFailed(failure.value);
      }
      files := files[located.target := temps[temp]];
      temps := temps - {temp};
      return Written(size, sha256);
    }
  }
}
