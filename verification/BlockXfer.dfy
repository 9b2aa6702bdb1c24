/** Splitting a stream into hashed blocks and putting it together again
    (src/block_xfer.rs:86-236). Hash functions are values: `hb` hashes the secret and a
    block, `ht` the secret and the hashes of all blocks. */
module BlockXfer {
  import opened Defs

  type Byte = bv8
  type Bytes = seq<Byte>

  type BlockHash = (Bytes, Bytes) -> HashId
  type TotalHash = (Bytes, seq<HashId>) -> HashId

  datatype BlockList = BlockList(total: HashId, blocks: seq<HashId>)

  datatype Result<T> = Ok(value: T) | Err

  // ----- What the methods below compute -----

  /** Blocks of `size` bytes, the last one perhaps shorter. */
  function BlocksOf(data: Bytes, size: nat): seq<Bytes> {
    if data == [] || size == 0 then []
    else if |data| <= size then [data]
    else [data[..size]] + BlocksOf(data[size..], size)
  }

  function Join(blocks: seq<Bytes>): Bytes {
    if blocks == [] then [] else blocks[0] + Join(blocks[1..])
  }

  function Hashes(blocks: seq<Bytes>, secret: Bytes, hb: BlockHash): (r: seq<HashId>)
    ensures |r| == |blocks| && forall i :: 0 <= i < |blocks| ==> r[i] == hb(secret, blocks[i])
  {
    seq(|blocks|, i requires 0 <= i < |blocks| => hb(secret, blocks[i]))
  }

  function ListOf(blocks: seq<Bytes>, secret: Bytes, hb: BlockHash, ht: TotalHash): BlockList {
    BlockList(ht(secret, Hashes(blocks, secret, hb)), Hashes(blocks, secret, hb))
  }

  /** All blocks are non-empty and all but the last are full. */
  lemma {:induction false} BlocksShape(data: Bytes, size: nat)
    ensures var s := BlocksOf(data, size);
            && (forall i :: 0 <= i < |s| ==> 0 < |s[i]| <= size)
            && (forall i :: 0 <= i < |s| - 1 ==> |s[i]| == size)
            && (s == [] <==> data == [] || size == 0)
  {
    if data != [] && size != 0 && |data| > size { BlocksShape(data[size..], size); }
  }

  /** Joining the blocks gives the stream back, except that a block size of zero loses
      everything. */
  lemma {:induction false} JoinBlocks(data: Bytes, size: nat)
    ensures Join(BlocksOf(data, size)) == data <==> size > 0 || data == []
  {
    if data != [] && size > 0 {
      if |data| > size {
        JoinBlocks(data[size..], size);
        assert data[..size] + data[size..] == data;
        var s := BlocksOf(data, size);
        assert s[1..] == BlocksOf(data[size..], size);
      } else {
        assert [data][1..] == [];
      }
    }
  }

  lemma {:induction false} JoinAppend(a: seq<Bytes>, b: seq<Bytes>)
    ensures Join(a + b) == Join(a) + Join(b)
  {
    if a == [] { assert a + b == b; }
    else {
      assert (a + b)[1..] == a[1..] + b;
      JoinAppend(a[1..], b);
    }
  }

  /** What follows the first block is split like a stream of its own. */
  lemma BlocksStep(data: Bytes, size: nat, k: nat)
    requires 0 < k <= |data| && k <= size && (k == size || k == |data|)
    ensures BlocksOf(data, size) == [data[..k]] + BlocksOf(data[k..], size)
  {
    if k == |data| { assert data[..k] == data; }
  }

  ghost predicate Injective(secret: Bytes, hb: BlockHash, ht: TotalHash) {
    && (forall a, b :: hb(secret, a) == hb(secret, b) ==> a == b)
    && (forall a, b :: ht(secret, a) == ht(secret, b) ==> a == b)
  }

  /** With injective hashes a list of blocks is known by its total alone. */
  lemma SameTotal(a: seq<Bytes>, b: seq<Bytes>, secret: Bytes, hb: BlockHash, ht: TotalHash)
    requires Injective(secret, hb, ht) && ListOf(a, secret, hb, ht).total == ListOf(b, secret, hb, ht).total
    ensures a == b
  {
    var x, y := Hashes(a, secret, hb), Hashes(b, secret, hb);
    assert x == y;
    forall i | 0 <= i < |a| ensures a[i] == b[i] { assert x[i] == y[i]; }
  }

  /** Blocks that pass for those of a stream join to that stream. */
  lemma ReceivedIsSent(data: Bytes, size: nat, got: seq<Bytes>, secret: Bytes, hb: BlockHash, ht: TotalHash)
    requires Injective(secret, hb, ht) && size > 0
    requires ListOf(got, secret, hb, ht) == ListOf(BlocksOf(data, size), secret, hb, ht)
    ensures Join(got) == data
  {
    SameTotal(got, BlocksOf(data, size), secret, hb, ht);
    JoinBlocks(data, size);
  }

  // ----- Streams -----

  /** What a read may do besides returning everything that was asked for. */
  datatype Reply = Interrupted | Broken | AtMost(n: nat)

  datatype ReadResult = Got(n: nat) | Again | Failed

  predicate Sound(script: seq<Reply>) {
    forall i :: 0 <= i < |script| ==> !script[i].Broken?
  }

  method CopyInto(buf: array<Byte>, off: nat, bytes: Bytes)
    requires off + |bytes| <= buf.Length
    modifies buf
    ensures buf[..off] == old(buf[..off]) && buf[off..off + |bytes|] == bytes
  {
    var i := 0;
    while i < |bytes|
      invariant 0 <= i <= |bytes|
      invariant buf[..off] == old(buf[..off]) && buf[off..off + i] == bytes[..i]
    {
      buf[off + i] := bytes[i];
      assert buf[off..off + i + 1] == buf[off..off + i] + [buf[off + i]];
      i := i + 1;
    }
  }

  /** A byte source that may be interrupted, fail or return less than asked for, as its
      script says; a read of nothing means the end. */
  class Reader {
    const data: Bytes
    var pos: nat
    var script: seq<Reply>

    constructor (data: Bytes, script: seq<Reply>)
      ensures this.data == data && pos == 0 && this.script == script
    {
      this.data := data;
      this.pos := 0;
      this.script := script;
    }

    predicate Valid()
      reads this
    {
      pos <= |data|
    }

    function Rest(): Bytes
      requires Valid()
      reads this
    {
      data[pos..]
    }

    /** Reads into `buf` from `off` on. */
    method Read(buf: array<Byte>, off: nat) returns (r: ReadResult)
      requires Valid() && off < buf.Length
      modifies this, buf
      ensures Valid() && buf[..off] == old(buf[..off])
      ensures script == if old(script) == [] then [] else old(script)[1..]
      ensures r.Again? <==> old(script) != [] && old(script)[0].Interrupted?
      ensures r.Failed? <==> old(script) != [] && old(script)[0].Broken?
      ensures match r
              case Got(n) =>
                && off + n <= buf.Length && pos == old(pos) + n && (n == 0 <==> old(Rest()) == [])
                && buf[off..off + n] == old(Rest())[..n]
              case _ => pos == old(pos)
    {
      var limit := buf.Length - off;
      if |script| > 0 {
        var reply := script[0];
        script := script[1..];
        match reply
        case Interrupted => return Again;
        case Broken => return Failed;
        case AtMost(k) => if 0 < k < limit { limit := k; }
      }
      var n := if |data| - pos < limit then |data| - pos else limit;
      CopyInto(buf, off, data[pos..pos + n]);
      assert data[pos..][..n] == data[pos..pos + n];
      pos := pos + n;
      r := Got(n);
    }
  }

  /** A file being written. */
  class Output {
    var content: Bytes

    constructor ()
      ensures content == []
    {
      content := [];
    }
  }

  /** Fills the buffer up to its end or the end of the stream. */
  method Fill(input: Reader, buf: array<Byte>) returns (r: Result<nat>)
    requires input.Valid()
    modifies input, buf
    ensures input.Valid() && (Sound(old(input.script)) ==> Sound(input.script) && r.Ok?)
    ensures r.Ok? ==> && r.value <= buf.Length && r.value <= |old(input.Rest())|
                      && (r.value == buf.Length || r.value == |old(input.Rest())|)
                      && buf[..r.value] == old(input.Rest())[..r.value]
                      && input.Rest() == old(input.Rest())[r.value..]
  {
    var off := 0;
    ghost var rest := input.Rest();
    while off < buf.Length
      invariant off <= buf.Length && off <= |rest| && input.Valid() && input.pos == old(input.pos) + off
      invariant Sound(old(input.script)) ==> Sound(input.script)
      invariant buf[..off] == rest[..off] && input.Rest() == rest[off..]
      decreases |input.data| - input.pos, |input.script|
    {
      var got := input.Read(buf, off);
      match got
      case Again => continue;
      case Failed => return Err;
      case Got(n) =>
        if n == 0 { break; }
        assert buf[..off + n] == buf[..off] + buf[off..off + n];
        assert rest[..off + n] == rest[..off] + rest[off..][..n];
        off := off + n;
    }
    r := Ok(off);
  }

  // ----- Splitting -----

  /** `stream_to_blocks`. `refused` is the call at which the receiver of the blocks fails,
      if it does; `emitted` is what it was given. Whatever the pattern of reads, the blocks
      are those of `BlocksOf`. */
  method StreamToBlocks(input: Reader, blockSize: nat, secret: Bytes, hb: BlockHash, ht: TotalHash,
      refused: Option<nat>)
    returns (r: Result<BlockList>, emitted: seq<Bytes>)
    requires input.Valid()
    modifies input
    ensures r.Ok? ==> emitted == BlocksOf(old(input.Rest()), blockSize) && r.value == ListOf(emitted, secret, hb, ht)
    ensures emitted <= BlocksOf(old(input.Rest()), blockSize)
    ensures Sound(old(input.script)) && refused.None? ==> r.Ok?
  {
    var blocks: seq<HashId> := [];
    emitted := [];
    var buf := new Byte[blockSize];
    ghost var all := BlocksOf(input.Rest(), blockSize);
    while true
      invariant input.Valid() && buf.Length == blockSize && fresh(buf)
      invariant Sound(old(input.script)) ==> Sound(input.script)
      invariant all == emitted + BlocksOf(input.Rest(), blockSize)
      invariant blocks == Hashes(emitted, secret, hb)
      decreases |input.Rest()|
    {
      ghost var rest := input.Rest();
      var filled := Fill(input, buf);
      if filled.Err? { return Err, emitted; }
      var off := filled.value;
      if off == 0 {
        break;
      }
      var block := buf[..off];
      BlocksStep(rest, blockSize, off);
      assert all == (emitted + [block]) + BlocksOf(input.Rest(), blockSize);
      if refused == Some(|emitted|) { return Err, emitted; }
      emitted := emitted + [block];
      blocks := blocks + [hb(secret, block)];
    }
    assert BlocksOf(input.Rest(), blockSize) == [];
    r := Ok(BlockList(ht(secret, blocks), blocks));
  }
}
