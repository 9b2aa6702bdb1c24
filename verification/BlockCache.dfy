/** Receiving a file: put together from its blocks (src/block_xfer.rs:179-236), taking a
    whole local file or local blocks where a cache says that they have the right content
    (src/posix/replica.rs:1038-1164). */
module BlockCache {
  import opened Defs
  import opened BlockXfer

  /** Where the cache believes a block to be. */
  datatype Spot = Spot(path: Name, size: nat, index: nat)

  /** What reading a source gives: its bytes, and the pattern of reads. */
  datatype Source = Source(data: Bytes, script: seq<Reply>)

  /** The blocks as the other replica holds them can always be had from it. */
  ghost predicate Serves(remote: (nat, HashId) -> Option<Source>, blocks: seq<Bytes>, hashes: seq<HashId>) {
    && |blocks| == |hashes|
    && forall k, i :: 0 <= i < |blocks| ==>
         var s := remote(k, hashes[i]); s.Some? && s.value.data == blocks[i] && Sound(s.value.script)
  }

  /** `size` bytes from `start` on, or as many as there are. */
  function Slice(file: Bytes, start: nat, size: nat): Bytes {
    var rest := if start <= |file| then file[start..] else [];
    if size <= |rest| then rest[..size] else rest
  }

  /** The part of a file that the cache takes for a block. */
  function BlockAt(file: Bytes, spot: Spot): Bytes {
    Slice(file, spot.index * spot.size, spot.size)
  }

  lemma StartOf(i: nat, size: nat)
    requires i > 0
    ensures i * size == (i - 1) * size + size && (i - 1) * size >= 0
  {
  }

  lemma {:induction false} SliceIsBlock(file: Bytes, size: nat, i: nat, start: nat)
    requires i < |BlocksOf(file, size)| && start == i * size
    ensures Slice(file, start, size) == BlocksOf(file, size)[i]
    decreases i
  {
    if i > 0 {
      StartOf(i, size);
      var rest := file[size..];
      SliceIsBlock(rest, size, i - 1, start - size);
      SliceShift(file, size, start);
      hide Slice;
      assert BlocksOf(file, size)[i] == BlocksOf(rest, size)[i - 1];
    }
  }

  lemma SliceShift(file: Bytes, size: nat, start: nat)
    requires size <= |file| && size <= start
    ensures Slice(file, start, size) == Slice(file[size..], start - size, size)
  {
    if start <= |file| { assert file[size..][start - size..] == file[start..]; }
  }

  /** It is the block of that number. */
  lemma BlockAtIsBlock(file: Bytes, spot: Spot)
    requires spot.index < |BlocksOf(file, spot.size)|
    ensures BlockAt(file, spot) == BlocksOf(file, spot.size)[spot.index]
  {
    SliceIsBlock(file, spot.size, spot.index, spot.index * spot.size);
  }

  /** The client's side: its files, its two caches, and the replica that blocks are fetched
      from. Nothing is assumed of any of them. `clock` tells apart repeated reads. */
  class Client {
    const secret: Bytes
    const hb: BlockHash
    const ht: TotalHash
    const disk: map<Name, Bytes>
    const pattern: nat -> seq<Reply>
    const remote: (nat, HashId) -> Option<Source>
    var byFile: map<HashId, Name>
    var byBlock: map<HashId, Spot>
    var clock: nat

    constructor (secret: Bytes, hb: BlockHash, ht: TotalHash, disk: map<Name, Bytes>, pattern: nat -> seq<Reply>,
                 remote: (nat, HashId) -> Option<Source>, byFile: map<HashId, Name>, byBlock: map<HashId, Spot>)
      ensures this.secret == secret && this.hb == hb && this.ht == ht && this.disk == disk && this.pattern == pattern
      ensures this.remote == remote && this.byFile == byFile && this.byBlock == byBlock
    {
      this.secret, this.hb, this.ht, this.disk := secret, hb, ht, disk;
      this.pattern, this.remote, this.byFile, this.byBlock, this.clock := pattern, remote, byFile, byBlock, 0;
    }

    /** Forgets everything about a file that turned out not to be as remembered. */
    method DeleteCache(path: Name)
      modifies this
      ensures byFile == map h | h in old(byFile) && old(byFile)[h] != path :: old(byFile)[h]
      ensures byBlock == map h | h in old(byBlock) && old(byBlock)[h].path != path :: old(byBlock)[h]
      ensures clock == old(clock)
    {
      byFile := map h | h in byFile && byFile[h] != path :: byFile[h];
      byBlock := map h | h in byBlock && byBlock[h].path != path :: byBlock[h];
    }

    /** Reads to the end; errors leave what has been read so far. */
    method ReadToEnd(input: Reader) returns (data: Bytes)
      requires input.Valid()
      modifies input
      ensures data <= old(input.Rest()) && (Sound(old(input.script)) ==> data == old(input.Rest()))
    {
      data := [];
      var buf := new Byte[4096];
      ghost var rest := input.Rest();
      while true
        invariant input.Valid() && |data| <= |rest| && data == rest[..|data|] && input.Rest() == rest[|data|..] &&
            fresh(buf)
        invariant buf.Length == 4096 && (Sound(old(input.script)) ==> Sound(input.script))
        decreases |input.data| - input.pos, |input.script|
      {
        var got := input.Read(buf, 0);
        match got
        case Again => continue;
        case Failed => break;
        case Got(n) =>
          if n == 0 { break; }
          assert rest[..|data| + n] == rest[..|data|] + rest[|data|..][..n];
          data := data + buf[..n];
      }
    }

    /** What the cache remembers of the block is true, and the file can be read. */
    ghost predicate BlockHere(byBlock: map<HashId, Spot>, clock: nat, hash: HashId) {
      && hash in byBlock && byBlock[hash].path in disk && Sound(pattern(clock))
      && hb(secret, BlockAt(disk[byBlock[hash].path], byBlock[hash])) == hash
    }

    /** `fetch_block_local`: never gives data that does not have the hash asked for, and does
        give the block if it is where the cache says. */
    method FetchBlockLocal(hash: HashId) returns (r: Option<Bytes>)
      modifies this
      ensures r.Some? ==> hb(secret, r.value) == hash
      ensures r.Some? || hash !in byBlock
      ensures r.Some? || hash !in old(byBlock) ==> byBlock == old(byBlock) && byFile == old(byFile)
      ensures BlockHere(old(byBlock), old(clock), hash) ==>
                r == Some(BlockAt(disk[old(byBlock)[hash].path], old(byBlock)[hash]))
    {
      if hash !in byBlock { return None; }
      var spot := byBlock[hash];
      var data: Bytes := [];
      if spot.path in disk {
        var input := new Reader(BlockAt(disk[spot.path], spot), pattern(clock));
        assert input.Rest() == input.data;
        data := ReadToEnd(input);
        clock := clock + 1;
      }
      if hash == hb(secret, data) {
        r := Some(data);
      } else {
        DeleteCache(spot.path);
        r := None;
      }
    }

    /** `xfer_block`: the block that is here, or whatever the other replica gives. */
    method XferBlock(hash: HashId) returns (r: Option<Reader>)
      modifies this
      ensures r.Some? ==> fresh(r.value) && r.value.Valid() && r.value.pos == 0
      ensures || (r.Some? && hb(secret, r.value.data) == hash && r.value.script == [])
              || (exists k :: match remote(k, hash)
                              case None => r.None?
                              case Some(s) => r.Some? && r.value.data == s.data && r.value.script == s.script)
      ensures BlockHere(old(byBlock), old(clock), hash) ==>
                r.Some? && r.value.data == BlockAt(disk[old(byBlock)[hash].path], old(byBlock)[hash])
    {
      var local := FetchBlockLocal(hash);
      if local.Some? {
        var cursor := new Reader(local.value, []);
        return Some(cursor);
      }
      ghost var k := clock;
      var answer := remote(clock, hash);
      clock := clock + 1;
      if answer.Some? {
        var stream := new Reader(answer.value.data, answer.value.script);
        r := Some(stream);
      } else {
        r := None;
      }
      assert match remote(k, hash)
             case None => r.None?
             case Some(s) => r.Some? && r.value.data == s.data && r.value.script == s.script;
    }

    /** Streams one block into `output` and tells its hash. */
    method CopyBlock(input: Reader, output: Output) returns (r: Result<HashId>)
      requires input.Valid() && input.pos == 0
      modifies input, output
      ensures r.Ok? ==> output.content == old(output.content) + input.data && r.value == hb(secret, input.data)
      ensures Sound(old(input.script)) ==> r.Ok?
    {
      var buf := new Byte[4096];
      var seen: Bytes := [];
      while true
        invariant input.Valid() && input.pos == |seen| && seen == input.data[..|seen|] && fresh(buf) &&
            buf.Length == 4096
        invariant Sound(old(input.script)) ==> Sound(input.script)
        invariant output.content == old(output.content) + seen
        decreases |input.data| - input.pos, |input.script|
      {
        var got := input.Read(buf, 0);
        match got
        case Again => continue;
        case Failed => return Err;
        case Got(n) =>
          if n == 0 { break; }
          assert input.data[..|seen| + n] == input.data[..|seen|] + input.data[|seen|..][..n];
          seen := seen + buf[..n];
          output.content := output.content + buf[..n];
      }
      assert seen == input.data;
      r := Ok(hb(secret, seen));
    }

    /** `blocks_to_stream`: on success exactly the blocks with the listed hashes have been
        written, whatever was fetched. */
    method BlocksToStream(list: BlockList, output: Output) returns (ok: bool, ghost got: seq<Bytes>)
      modifies this, output
      ensures ok ==> list == ListOf(got, secret, hb, ht) && output.content == old(output.content) + Join(got)
      ensures forall blocks :: list == ListOf(blocks, secret, hb, ht) && Serves(remote, blocks, list.blocks) ==> ok
    {
      got := [];
      if ht(secret, list.blocks) != list.total {
        return false, got;
      }
      var i := 0;
      while i < |list.blocks|
        invariant 0 <= i <= |list.blocks| && |got| == i
        invariant forall j :: 0 <= j < i ==> hb(secret, got[j]) == list.blocks[j]
        invariant output.content == old(output.content) + Join(got)
      {
        var id := list.blocks[i];
        var reader := XferBlock(id);
        if reader.None? { return false, got; }
        var hash := CopyBlock(reader.value, output);
        if hash.Err? || hash.value != id { return false, got; }
        JoinAppend(got, [reader.value.data]);
        assert Join([reader.value.data]) == reader.value.data;
        got := got + [reader.value.data];
        i := i + 1;
      }
      assert Hashes(got, secret, hb) == list.blocks;
      ok := true;
    }

    /** The file that the cache remembers for `hash`, if there is one, can be read to its end
        and written. */
    ghost predicate ReadsThrough(byFile: map<HashId, Name>, clock: nat, hash: HashId, refused: Option<nat>) {
      hash in byFile ==> byFile[hash] in disk && Sound(pattern(clock)) && refused.None?
    }

    /** The file that the cache remembers has the total asked for, and can be read through. */
    ghost predicate FileHere(byFile: map<HashId, Name>, clock: nat, hash: HashId, blockSize: nat,
                             refused: Option<nat>)
    {
      && hash in byFile && ReadsThrough(byFile, clock, hash, refused)
      && ListOf(BlocksOf(disk[byFile[hash]], blockSize), secret, hb, ht).total == hash
    }

    /** `copy_file_local`: on success a file with the total asked for has been written. An
        unreadable file counts as having `UNKNOWN_HASH`. */
    method CopyFileLocal(output: Output, hash: HashId, blockSize: nat, refused: Option<nat>)
        returns (ok: bool, ghost got: seq<Bytes>)
      modifies this, output
      ensures ok && (hash != UNKNOWN_HASH || ReadsThrough(old(byFile), old(clock), hash, refused)) ==>
                hash == ListOf(got, secret, hb, ht).total && output.content == old(output.content) + Join(got)
      ensures hash in old(byFile) && old(byFile)[hash] !in disk && hash == UNKNOWN_HASH ==>
          ok && output.content == old(output.content)
      ensures ok || hash !in byFile
      ensures ok || hash !in old(byFile) ==> byBlock == old(byBlock) && byFile == old(byFile)
      ensures FileHere(old(byFile), old(clock), hash, blockSize, refused) ==>
                ok && output.content == old(output.content) + Join(BlocksOf(disk[old(byFile)[hash]], blockSize))
    {
      got := [];
      if hash !in byFile { return false, got; }
      var path, actual := byFile[hash], UNKNOWN_HASH;
      if path in disk {
        var input := new Reader(disk[path], pattern(clock));
        assert input.Rest() == disk[path];
        clock := clock + 1;
        var r, emitted := StreamToBlocks(input, blockSize, secret, hb, ht, refused);
        output.content := output.content + Join(emitted);
        if r.Ok? { actual := r.value.total; got := emitted; }
      }
      ok := hash == actual;
      if !ok { DeleteCache(path); }
    }

    /** `xfer_file` into an empty file. On success the file has the content that the blocks
        were made from, whatever the caches say, except if the total is `UNKNOWN_HASH`: a
        remembered file that cannot be read passes for one with that hash. */
    method XferFile(output: Output, list: BlockList, blockSize: nat, refused: Option<nat>) returns (ok: bool)
      requires output.content == []
      modifies this, output
      ensures ok && Injective(secret, hb, ht)
              && (list.blocks == [] || list.total != UNKNOWN_HASH
                  || ReadsThrough(old(byFile), old(clock), list.total, refused)) ==>
                forall blocks :: list == ListOf(blocks, secret, hb, ht) ==> output.content == Join(blocks)
      ensures list.blocks != [] && list.total == UNKNOWN_HASH
              && list.total in old(byFile) && old(byFile)[list.total] !in disk ==>
                ok && output.content == []
      ensures forall blocks :: list == ListOf(blocks, secret, hb, ht) && Serves(remote, blocks, list.blocks) ==> ok
      ensures list.blocks != [] && FileHere(old(byFile), old(clock), list.total, blockSize, refused) ==>
                ok && output.content == Join(BlocksOf(disk[old(byFile)[list.total]], blockSize))
    {
      if list.blocks != [] {
        var copied, got := CopyFileLocal(output, list.total, blockSize, refused);
        if copied {
          if Injective(secret, hb, ht)
             && (list.total != UNKNOWN_HASH || ReadsThrough(old(byFile), old(clock), list.total, refused)) {
            forall blocks | list == ListOf(blocks, secret, hb, ht) ensures output.content == Join(blocks) {
              SameTotal(got, blocks, secret, hb, ht);
            }
          }
          return true;
        }
      }
      output.content := [];
      ghost var got;
      ok, got := BlocksToStream(list, output);
      if ok && Injective(secret, hb, ht) {
        forall blocks | list == ListOf(blocks, secret, hb, ht) ensures output.content == Join(blocks) {
          SameTotal(got, blocks, secret, hb, ht);
        }
      }
    }
  }

  /** Such a list exists for every stream that is not empty, if the hash of all blocks comes
      out as `UNKNOWN_HASH`; leaving the destination empty is then not the stream. */
  lemma UnknownTotalFools(data: Bytes, size: nat, secret: Bytes, hb: BlockHash, ht: TotalHash)
    requires data != [] && size > 0
    requires ht(secret, Hashes(BlocksOf(data, size), secret, hb)) == UNKNOWN_HASH
    ensures var list := ListOf(BlocksOf(data, size), secret, hb, ht);
            list.blocks != [] && list.total == UNKNOWN_HASH && Join(BlocksOf(data, size)) != []
  {
    JoinBlocks(data, size);
    BlocksShape(data, size);
  }
}
