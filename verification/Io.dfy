/** The streaming loops of app/repositories/io.py: files are read in chunks, and a
    digest is fed the chunks as they pass. */
module Io {
  import opened Etags

  const FILE_CHUNK_SIZE_BYTES := 65536

  /** An open file: what it holds and how far it has been read. */
  class FileReader {
    const content: Bytes
    var position: nat

    ghost predicate Valid()
      reads this
    {
      position <= |content|
    }

    constructor (data: Bytes)
      ensures Valid() && content == data && position == 0
    {
      content, position := data, 0;
    }

    method Read(size: nat) returns (chunk: Bytes)
      requires Valid() && size > 0
      modifies this
      ensures Valid() && content[..position] == content[..old(position)] + chunk
      ensures chunk == [] <==> old(position) == |content|
      ensures position >= old(position) && (chunk != [] ==> position > old(position))
    {
      var end := if position + size <= |content| then position + size else |content|;
      chunk := content[position..end];
      position := end;
    }
  }

  /** An incremental MD5: the bytes it has been fed. */
  class Digest {
    var fed: Bytes

    constructor ()
      ensures fed == []
    {
      fed := [];
    }

    method Update(chunk: Bytes)
      modifies this
      ensures fed == old(fed) + chunk
    {
      fed := fed + chunk;
    }

    method HexDigest() returns (hash: string)
      ensures hash == ContentEtag(fed)
    {
      hash := ContentEtag(fed);
    }
  }

  /** `get_file_hash`. */
  method FileHash(data: Bytes) returns (hash: string)
    ensures hash == ContentEtag(data)
  {
    var digest := new Digest();
    var file := new FileReader(data);
    while true
      invariant file.Valid() && file.content == data && digest.fed == data[..file.position]
      decreases |data| - file.position
    {
      var chunk := file.Read(FILE_CHUNK_SIZE_BYTES);
      if chunk == [] { break; }
      digest.Update(chunk);
    }
    assert data[..|data|] == data;
    hash := digest.HexDigest();
  }

  /** `concat`: the sources' bytes one after the other, and the MD5 of each, taken from the same pass. */
  method Concat(sources: seq<Bytes>) returns (data: Bytes, hashes: seq<string>)
    ensures data == Flatten(sources) && hashes == ContentEtags(sources)
  {
    data, hashes := [], [];
    for index := 0 to |sources|
      invariant data == Flatten(sources[..index]) && hashes == ContentEtags(sources[..index])
    {
      var source := sources[index];
      var digest := new Digest();
      var file := new FileReader(source);
      ghost var before := data;
      while true
        invariant file.Valid() && file.content == source && digest.fed == source[..file.position]
        invariant data == before + source[..file.position]
        decreases |source| - file.position
      {
        var chunk := file.Read(FILE_CHUNK_SIZE_BYTES);
        if chunk == [] { break; }
        digest.Update(chunk);
        data := data + chunk;
      }
      assert source[..|source|] == source;
      var hash := digest.HexDigest();
      hashes := hashes + [hash];
      FlattenAppend(sources[..index], [source]);
      assert sources[..index + 1] == sources[..index] + [source];
      assert Flatten([source]) == source;
    }
    assert sources[..|sources|] == sources;
  }
}
