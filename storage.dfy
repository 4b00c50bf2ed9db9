/** Object storage as seen by its callers: `storagePut` is a remote call
    whose answer (the public URL, or the error it throws) is supplied from
    outside; every call is recorded in a ghost log. */
module Storage {
  import opened Common

  datatype StoredBlob = StoredBlob(key: string, data: seq<bv8>, contentType: string)

  class BlobStore {
    ghost var puts: seq<StoredBlob>

    constructor ()
      ensures puts == []
    {
      puts := [];
    }

    method Put(key: string, data: seq<bv8>, contentType: string, answer: Result<string>) returns (r: Result<string>)
      modifies this
      ensures puts == old(puts) + [StoredBlob(key, data, contentType)]
      ensures r == answer
    {
      puts := puts + [StoredBlob(key, data, contentType)];
      r := answer;
    }
  }
}
