/** Encrypted directories that can be appended to (src/server/crypt.rs:597-718, 776-839):
    cipher block chaining as in section 6.2 of NIST SP 800-38A over a block cipher that is
    only known to be a keyed permutation. */
module Cbc {
  import opened BlockXfer

  const BLKSZ := 16
  const ZERO: Bytes := [0, 0, 0, 0, 0, 0, 0, 0, 0, 0, 0, 0, 0, 0, 0, 0]

  type Cipher = (Bytes, Bytes) -> Bytes

  predicate IsBlock(b: Bytes) { |b| == BLKSZ }

  /** `n` bytes are a number of whole blocks. */
  predicate Whole(n: nat) {
    n == 0 || (n >= BLKSZ && Whole(n - BLKSZ))
  }

  predicate Aligned(data: Bytes) { Whole(|data|) }

  lemma {:induction false} WholeIff(n: nat)
    ensures Whole(n) <==> n % BLKSZ == 0
  {
    if n >= BLKSZ {
      WholeIff(n - BLKSZ);
      assert n % BLKSZ == (n - BLKSZ) % BLKSZ;
    }
  }

  lemma {:induction false} WholeSum(a: nat, b: nat)
    requires Whole(a)
    ensures Whole(a + b) <==> Whole(b)
  {
    if a > 0 { WholeSum(a - BLKSZ, b); }
  }

  /** Blocks go to blocks. */
  ghost predicate Blockwise(f: Cipher) {
    forall k, b :: |b| == BLKSZ ==> |f(k, b)| == BLKSZ
  }

  /** `dec` undoes `enc` under every key. */
  ghost predicate Inverse(enc: Cipher, dec: Cipher) {
    Blockwise(enc) && Blockwise(dec) && forall k, b :: |b| == BLKSZ ==> dec(k, enc(k, b)) == b
  }

  function BitXor(x: Byte, y: Byte): Byte { x ^ y }

  function Xor(a: Bytes, b: Bytes): (r: Bytes)
    requires |a| == |b|
    ensures |r| == |a| && forall i :: 0 <= i < |a| ==> r[i] == BitXor(a[i], b[i])
  {
    seq(|a|, i requires 0 <= i < |a| => BitXor(a[i], b[i]))
  }

  lemma BitXorTwice(x: Byte, y: Byte)
    ensures BitXor(x, BitXor(x, y)) == y && BitXor(x, y) == BitXor(y, x)
  {
  }

  lemma XorTwice(a: Bytes, b: Bytes)
    requires |a| == |b|
    ensures Xor(a, Xor(a, b)) == b && Xor(a, b) == Xor(b, a)
  {
    hide BitXor;
    forall i | 0 <= i < |a| ensures Xor(a, Xor(a, b))[i] == b[i] && Xor(a, b)[i] == Xor(b, a)[i] {
      BitXorTwice(a[i], b[i]);
    }
  }

  lemma XorCancels(a: Bytes, b: Bytes, c: Bytes)
    requires |a| == |b| == |c| && Xor(a, c) == Xor(b, c)
    ensures a == b
  {
    hide BitXor, Xor;
    XorTwice(a, c);
    XorTwice(b, c);
    XorTwice(c, a);
    XorTwice(c, b);
  }

  // ----- The mode -----

  function Encrypt(enc: Cipher, key: Bytes, iv: Bytes, data: Bytes): Bytes
    requires IsBlock(iv) && Aligned(data) && Blockwise(enc)
    decreases |data|
  {
    if data == [] then []
    else
      var c := enc(key, Xor(iv, data[..BLKSZ]));
      c + Encrypt(enc, key, c, data[BLKSZ..])
  }

  function Decrypt(dec: Cipher, key: Bytes, iv: Bytes, data: Bytes): Bytes
    requires IsBlock(iv) && Aligned(data) && Blockwise(dec)
    decreases |data|
  {
    if data == [] then []
    else Xor(iv, dec(key, data[..BLKSZ])) + Decrypt(dec, key, data[..BLKSZ], data[BLKSZ..])
  }

  /** The block that the next one is chained to. */
  function Chain(iv: Bytes, cipherText: Bytes): Bytes
    requires Aligned(cipherText)
  {
    if cipherText == [] then iv else cipherText[|cipherText| - BLKSZ..]
  }

  lemma OneBlock(enc: Cipher, dec: Cipher, key: Bytes, iv: Bytes, b: Bytes)
    requires Inverse(enc, dec) && IsBlock(iv) && IsBlock(b)
    ensures Encrypt(enc, key, iv, b) == enc(key, Xor(iv, b)) && Decrypt(dec, key, iv, b) == Xor(iv, dec(key, b))
    ensures Decrypt(dec, key, iv, []) == []
  {
    assert b[..BLKSZ] == b && b[BLKSZ..] == [];
  }

  lemma {:induction false} EncryptLength(enc: Cipher, dec: Cipher, key: Bytes, iv: Bytes, data: Bytes)
    requires Inverse(enc, dec) && IsBlock(iv) && Aligned(data)
    ensures |Encrypt(enc, key, iv, data)| == |data|
    decreases |data|
  {
    if data != [] { EncryptLength(enc, dec, key, enc(key, Xor(iv, data[..BLKSZ])), data[BLKSZ..]); }
  }

  lemma {:induction false} DecryptLength(enc: Cipher, dec: Cipher, key: Bytes, iv: Bytes, data: Bytes)
    requires Inverse(enc, dec) && IsBlock(iv) && Aligned(data)
    ensures |Decrypt(dec, key, iv, data)| == |data|
    decreases |data|
  {
    if data != [] { DecryptLength(enc, dec, key, data[..BLKSZ], data[BLKSZ..]); }
  }

  /** Decryption undoes encryption under the same key and initial block. */
  lemma {:induction false} RoundTrip(enc: Cipher, dec: Cipher, key: Bytes, iv: Bytes, data: Bytes)
    requires Inverse(enc, dec) && IsBlock(iv) && Aligned(data)
    ensures |Encrypt(enc, key, iv, data)| == |data| && Decrypt(dec, key, iv, Encrypt(enc, key, iv, data)) == data
    decreases |data|
  {
    EncryptLength(enc, dec, key, iv, data);
    if data != [] {
      var c := enc(key, Xor(iv, data[..BLKSZ]));
      var rest := Encrypt(enc, key, c, data[BLKSZ..]);
      assert (c + rest)[..BLKSZ] == c && (c + rest)[BLKSZ..] == rest;
      XorTwice(iv, data[..BLKSZ]);
      EncryptLength(enc, dec, key, c, data[BLKSZ..]);
      RoundTrip(enc, dec, key, c, data[BLKSZ..]);
    }
  }

  lemma EncryptAligned(enc: Cipher, dec: Cipher, key: Bytes, iv: Bytes, data: Bytes)
    requires Inverse(enc, dec) && IsBlock(iv) && Aligned(data)
    ensures Aligned(Encrypt(enc, key, iv, data))
  {
    EncryptLength(enc, dec, key, iv, data);
  }

  lemma SumAligned(a: Bytes, b: Bytes)
    requires Aligned(a)
    ensures Aligned(a + b) <==> Aligned(b)
  {
    WholeSum(|a|, |b|);
  }

  lemma ChainAppend(iv: Bytes, a: Bytes, b: Bytes)
    requires Aligned(a) && Aligned(b)
    ensures Aligned(a + b) && Chain(iv, a + b) == Chain(Chain(iv, a), b)
  {
    SumAligned(a, b);
    if b == [] { assert a + b == a; }
  }

  /** The last block stays the last when the first is taken off. */
  lemma ChainStep(iv: Bytes, data: Bytes)
    requires Aligned(data) && data != []
    ensures |data| >= BLKSZ && Aligned(data[BLKSZ..]) && Chain(iv, data) == Chain(data[..BLKSZ], data[BLKSZ..])
  {
    if |data| == BLKSZ { assert data[0..] == data[..BLKSZ]; }
  }

  lemma EncryptStep(enc: Cipher, key: Bytes, iv: Bytes, data: Bytes)
    requires Blockwise(enc) && IsBlock(iv) && Aligned(data) && data != []
    ensures var c := enc(key, Xor(iv, data[..BLKSZ]));
            IsBlock(c) && Encrypt(enc, key, iv, data) == c + Encrypt(enc, key, c, data[BLKSZ..])
  {
  }

  lemma DecryptStep(dec: Cipher, key: Bytes, iv: Bytes, data: Bytes)
    requires Blockwise(dec) && IsBlock(iv) && Aligned(data) && data != []
    ensures Decrypt(dec, key, iv, data)
            == Xor(iv, dec(key, data[..BLKSZ])) + Decrypt(dec, key, data[..BLKSZ], data[BLKSZ..])
  {
  }

  /** Block number `j`. */
  function Block(data: Bytes, j: nat): Bytes
    requires (j + 1) * BLKSZ <= |data|
  {
    data[j * BLKSZ..(j + 1) * BLKSZ]
  }

  lemma BlockShift(data: Bytes, rest: Bytes, j: nat)
    requires j > 0 && (j + 1) * BLKSZ <= |data| && rest == data[BLKSZ..]
    ensures Block(data, j) == Block(rest, j - 1)
  {
    var a, b := Block(data, j), Block(rest, j - 1);
    forall i | 0 <= i < BLKSZ ensures a[i] == b[i] {
      var k := (j - 1) * BLKSZ + i;
      assert b[i] == rest[k];
      assert rest[k] == data[BLKSZ + k];
      assert a[i] == data[j * BLKSZ + i];
    }
  }

  /** The equations of section 6.2: each block of cipher text is the encryption of the block
      of plain text, masked by the block of cipher text before it or by the initial block. */
  lemma {:induction false} EncryptEquation(enc: Cipher, dec: Cipher, key: Bytes, iv: Bytes, data: Bytes, j: nat)
    requires Inverse(enc, dec) && IsBlock(iv) && Aligned(data) && (j + 1) * BLKSZ <= |data|
    ensures var c := Encrypt(enc, key, iv, data);
            |c| == |data| && Block(c, j) == enc(key, Xor(if j == 0 then iv else Block(c, j - 1), Block(data, j)))
    decreases j
  {
    var c := Encrypt(enc, key, iv, data);
    EncryptLength(enc, dec, key, iv, data);
    EncryptStep(enc, key, iv, data);
    var first, tail := enc(key, Xor(iv, data[..BLKSZ])), data[BLKSZ..];
    var rest := Encrypt(enc, key, first, tail);
    assert c[..BLKSZ] == first && c[BLKSZ..] == rest && Block(data, 0) == data[..BLKSZ] && Block(c, 0) == first;
    if j > 0 {
      hide Encrypt, Xor, Block;
      EncryptEquation(enc, dec, key, first, tail, j - 1);
      BlockShift(data, tail, j);
      BlockShift(c, rest, j);
      if j > 1 { BlockShift(c, rest, j - 1); }
    }
  }

  lemma Regroup(a: Bytes, b: Bytes, c: Bytes)
    ensures a + (b + c) == (a + b) + c
  {
  }

  /** Cutting the first block off a concatenation. */
  lemma CutFirst(a: Bytes, b: Bytes)
    requires |a| >= BLKSZ
    ensures (a + b)[..BLKSZ] == a[..BLKSZ] && (a + b)[BLKSZ..] == a[BLKSZ..] + b
  {
  }

  /** Encrypting in two goes, the second chained to the last block of the first. */
  lemma {:induction false} EncryptAppend(enc: Cipher, dec: Cipher, key: Bytes, iv: Bytes, a: Bytes, b: Bytes)
    requires Inverse(enc, dec) && IsBlock(iv) && Aligned(a) && Aligned(b)
    ensures Aligned(a + b)
    ensures var ca := Encrypt(enc, key, iv, a);
            && Aligned(ca) && IsBlock(Chain(iv, ca))
            && Encrypt(enc, key, iv, a + b) == ca + Encrypt(enc, key, Chain(iv, ca), b)
    decreases |a|
  {
    SumAligned(a, b);
    EncryptAligned(enc, dec, key, iv, a);
    if a == [] {
      assert a + b == b;
    } else {
      ChainStep(iv, a);
      EncryptStep(enc, key, iv, a);
      EncryptStep(enc, key, iv, a + b);
      CutFirst(a, b);
      var c := enc(key, Xor(iv, a[..BLKSZ]));
      hide Aligned, Chain, Xor, Encrypt;
      EncryptAppend(enc, dec, key, c, a[BLKSZ..], b);
      var ra := Encrypt(enc, key, c, a[BLKSZ..]);
      ChainStep(iv, c + ra);
      CutFirst(c, ra);
      assert c[..BLKSZ] == c && c[BLKSZ..] + ra == ra;
      Regroup(c, ra, Encrypt(enc, key, Chain(c, ra), b));
    }
  }

  lemma {:induction false} DecryptAppend(enc: Cipher, dec: Cipher, key: Bytes, iv: Bytes, a: Bytes, b: Bytes)
    requires Inverse(enc, dec) && IsBlock(iv) && Aligned(a) && Aligned(b)
    ensures Aligned(a + b) && IsBlock(Chain(iv, a))
    ensures Decrypt(dec, key, iv, a + b) == Decrypt(dec, key, iv, a) + Decrypt(dec, key, Chain(iv, a), b)
    decreases |a|
  {
    SumAligned(a, b);
    if a == [] {
      assert a + b == b;
    } else {
      ChainStep(iv, a);
      DecryptStep(dec, key, iv, a);
      DecryptStep(dec, key, iv, a + b);
      CutFirst(a, b);
      hide Aligned, Chain, Xor, Decrypt, Inverse;
      DecryptAppend(enc, dec, key, a[..BLKSZ], a[BLKSZ..], b);
      var x, ra := Xor(iv, dec(key, a[..BLKSZ])), Decrypt(dec, key, a[..BLKSZ], a[BLKSZ..]);
      Regroup(x, ra, Decrypt(dec, key, Chain(iv, a), b));
    }
  }

  // ----- Directory files -----

  /** The session key and initial block, encrypted under the master key. */
  function Prefix(enc: Cipher, master: Bytes, key: Bytes, iv: Bytes): Bytes
    requires IsBlock(key) && IsBlock(iv) && Blockwise(enc)
  {
    Encrypt(enc, master, ZERO, key + iv)
  }

  function WholeDir(enc: Cipher, master: Bytes, key: Bytes, iv: Bytes, first: Bytes): Bytes
    requires IsBlock(key) && IsBlock(iv) && Aligned(first) && Blockwise(enc)
  {
    Prefix(enc, master, key, iv) + Encrypt(enc, key, iv, first)
  }

  /** The initial block for an append: the last block of the file. */
  function AppendIv(file: Bytes): Bytes
    requires |file| >= BLKSZ
  {
    file[|file| - BLKSZ..]
  }

  function Appended(enc: Cipher, key: Bytes, file: Bytes, more: seq<Bytes>): Bytes
    requires |file| >= BLKSZ && (forall i :: 0 <= i < |more| ==> Aligned(more[i])) && Blockwise(enc)
    decreases |more|
  {
    if more == [] then file
    else Appended(enc, key, file + Encrypt(enc, key, AppendIv(file), more[0]), more[1..])
  }

  function Opened(dec: Cipher, master: Bytes, file: Bytes): (Bytes, Bytes)
    requires |file| >= 2 * BLKSZ && Aligned(file) && Blockwise(dec)
  {
    assert Whole(|file| - BLKSZ);
    var head := Decrypt(dec, master, ZERO, file[..2 * BLKSZ]);
    if |head| != 2 * BLKSZ then ([], [])
    else (head[..BLKSZ], Decrypt(dec, head[..BLKSZ], head[BLKSZ..], file[2 * BLKSZ..]))
  }

  function Flat(parts: seq<Bytes>): Bytes {
    if parts == [] then [] else parts[0] + Flat(parts[1..])
  }

  ghost predicate AllAligned(parts: seq<Bytes>) {
    forall i :: 0 <= i < |parts| ==> Aligned(parts[i])
  }

  lemma {:induction false} FlatAligned(parts: seq<Bytes>)
    requires AllAligned(parts)
    ensures Aligned(Flat(parts))
  {
    if parts != [] {
      FlatAligned(parts[1..]);
      SumAligned(parts[0], Flat(parts[1..]));
    }
  }

  /** Any number of appends amounts to one, chained to the end of the file. */
  lemma {:induction false} AppendsAreOne(enc: Cipher, dec: Cipher, key: Bytes, file: Bytes, more: seq<Bytes>)
    requires Inverse(enc, dec) && |file| >= BLKSZ && Aligned(file) && AllAligned(more)
    ensures Aligned(Flat(more)) &&
        Appended(enc, key, file, more) == file + Encrypt(enc, key, AppendIv(file), Flat(more))
    decreases |more|
  {
    FlatAligned(more);
    if more != [] {
      var c := Encrypt(enc, key, AppendIv(file), more[0]);
      EncryptLength(enc, dec, key, AppendIv(file), more[0]);
      var next := file + c;
      SumAligned(file, c);
      AppendsAreOne(enc, dec, key, next, more[1..]);
      EncryptAppend(enc, dec, key, AppendIv(file), more[0], Flat(more[1..]));
      assert AppendIv(next) == Chain(AppendIv(file), c);
    }
  }

  lemma PrefixOpens(enc: Cipher, dec: Cipher, master: Bytes, key: Bytes, iv: Bytes, body: Bytes)
    requires Inverse(enc, dec) && IsBlock(key) && IsBlock(iv) && Aligned(body)
    ensures var p := Prefix(enc, master, key, iv);
            |p| == 2 * BLKSZ && Opened(dec, master, p + body) == (key, Decrypt(dec, key, iv, body))
  {
    var p := Prefix(enc, master, key, iv);
    RoundTrip(enc, dec, master, ZERO, key + iv);
    assert (p + body)[..2 * BLKSZ] == p && (p + body)[2 * BLKSZ..] == body;
    assert (key + iv)[..BLKSZ] == key && (key + iv)[BLKSZ..] == iv;
  }

  /** Decrypting a file chained to a block that decryption does not start from. */
  lemma WrongStart(enc: Cipher, dec: Cipher, key: Bytes, iv: Bytes, other: Bytes, data: Bytes)
    requires Inverse(enc, dec) && IsBlock(iv) && IsBlock(other) && Aligned(data) && data != []
    ensures Aligned(Encrypt(enc, key, other, data))
    ensures Decrypt(dec, key, iv, Encrypt(enc, key, other, data)) == data <==> iv == other
  {
    RoundTrip(enc, dec, key, other, data);
    var file := Encrypt(enc, key, other, data);
    var c := file[..BLKSZ];
    var one, two := Decrypt(dec, key, iv, file), Decrypt(dec, key, other, file);
    assert one[..BLKSZ] == Xor(iv, dec(key, c)) && two[..BLKSZ] == Xor(other, dec(key, c));
    if one == data { XorCancels(iv, other, dec(key, c)); }
  }

  /** A directory file written at once and then appended to opens as the concatenation of
      everything written, with the same session key, exactly if something was written at
      first, or nothing was appended, or the prefix happens to end in the initial block. */
  lemma AppendableRoundTrip(enc: Cipher, dec: Cipher, master: Bytes, key: Bytes, iv: Bytes, first: Bytes,
      more: seq<Bytes>)
    requires Inverse(enc, dec) && IsBlock(key) && IsBlock(iv) && Aligned(first) && AllAligned(more)
    ensures var file := WholeDir(enc, master, key, iv, first);
            && |file| >= 2 * BLKSZ && Aligned(Appended(enc, key, file, more)) &&
                |Appended(enc, key, file, more)| >= 2 * BLKSZ
            && (Opened(dec, master, Appended(enc, key, file, more)) == (key, first + Flat(more)) <==>
                  first != [] || Flat(more) == [] || AppendIv(Prefix(enc, master, key, iv)) == iv)
  {
    hide Encrypt, Decrypt, Xor, Opened;
    var p, body := Prefix(enc, master, key, iv), Encrypt(enc, key, iv, first);
    EncryptLength(enc, dec, master, ZERO, key + iv);
    EncryptLength(enc, dec, key, iv, first);
    var file := p + body;
    SumAligned(p, body);
    AppendsAreOne(enc, dec, key, file, more);
    var tail := Encrypt(enc, key, AppendIv(file), Flat(more));
    EncryptLength(enc, dec, key, AppendIv(file), Flat(more));
    SumAligned(body, tail);
    SumAligned(p, body + tail);
    assert file + tail == p + (body + tail);
    PrefixOpens(enc, dec, master, key, iv, body + tail);
    if first != [] {
      assert AppendIv(file) == Chain(iv, body);
      EncryptAppend(enc, dec, key, iv, first, Flat(more));
      RoundTrip(enc, dec, key, iv, first + Flat(more));
    } else if Flat(more) == [] {
      assert body + tail == [];
      OneBlock(enc, dec, key, iv, iv);
      assert first + Flat(more) == [];
    } else {
      assert body + tail == tail && file == p && first + Flat(more) == Flat(more);
      WrongStart(enc, dec, key, iv, AppendIv(p), Flat(more));
    }
  }

  // ----- Streams -----

  /** A cipher object: it encrypts or decrypts whole blocks and remembers the last block of
      cipher text. */
  class Cryptor {
    const enc: Cipher
    const dec: Cipher
    const key: Bytes
    const encrypting: bool
    var chain: Bytes

    ghost predicate Valid()
      reads this
    {
      Inverse(enc, dec) && IsBlock(chain)
    }

    constructor (enc: Cipher, dec: Cipher, key: Bytes, iv: Bytes, encrypting: bool)
      requires Inverse(enc, dec) && IsBlock(iv)
      ensures Valid() && this.enc == enc && this.dec == dec && this.key == key && this.encrypting == encrypting &&
          chain == iv
    {
      this.enc, this.dec, this.key, this.encrypting, this.chain := enc, dec, key, encrypting, iv;
    }

    ghost function Run(iv: Bytes, data: Bytes): Bytes
      requires Inverse(enc, dec) && IsBlock(iv) && Aligned(data)
    {
      if encrypting then Encrypt(enc, key, iv, data) else Decrypt(dec, key, iv, data)
    }

    ghost function After(iv: Bytes, data: Bytes): Bytes
      requires Inverse(enc, dec) && IsBlock(iv) && Aligned(data)
    {
      var c := if encrypting then Encrypt(enc, key, iv, data) else data;
      if Aligned(c) then Chain(iv, c) else iv
    }

    lemma RunAppend(iv: Bytes, a: Bytes, b: Bytes)
      requires Inverse(enc, dec) && IsBlock(iv) && Aligned(a) && Aligned(b)
      ensures Aligned(a + b) && IsBlock(After(iv, a)) && Run(iv, a + b) == Run(iv, a) + Run(After(iv, a), b)
      ensures After(iv, a + b) == After(After(iv, a), b)
    {
      SumAligned(a, b);
      if encrypting {
        EncryptAppend(enc, dec, key, iv, a, b);
        var ca := Encrypt(enc, key, iv, a);
        EncryptAligned(enc, dec, key, Chain(iv, ca), b);
        hide Encrypt, Decrypt, Inverse, Xor, Aligned, Chain;
        var cb := Encrypt(enc, key, Chain(iv, ca), b);
        ChainAppend(iv, ca, cb);
        assert IsBlock(After(iv, a)) && Run(iv, a + b) == Run(iv, a) + Run(After(iv, a), b);
        assert After(iv, a + b) == After(After(iv, a), b);
      } else {
        hide Encrypt, Decrypt, Inverse, Xor, Aligned, Chain;
        DecryptAppend(enc, dec, key, iv, a, b);
        ChainAppend(iv, a, b);
        assert IsBlock(After(iv, a)) && Run(iv, a + b) == Run(iv, a) + Run(After(iv, a), b);
        assert After(iv, a + b) == After(After(iv, a), b);
      }
    }

    /** One call of the cipher object, on whole blocks. */
    method Crypt(input: Bytes) returns (out: Bytes)
      requires Valid() && Aligned(input)
      modifies this
      ensures Valid() && out == Run(old(chain), input) && chain == After(old(chain), input)
    {
      RunAppend(chain, input, []);
      EncryptLength(enc, dec, key, chain, input);
      if encrypting {
        out := EncryptBlocks(input);
      } else {
        out := DecryptBlocks(input);
      }
    }

    method EncryptBlocks(input: Bytes) returns (out: Bytes)
      requires Valid() && Aligned(input)
      modifies this
      ensures Valid() && out == Encrypt(enc, key, old(chain), input) && |out| == |input| &&
          chain == Chain(old(chain), out)
    {
      out := [];
      var i := 0;
      while i < |input|
        invariant 0 <= i <= |input| && Aligned(input[..i]) && Whole(|input| - i) && Valid() && |out| == i
        invariant out == Encrypt(enc, key, old(chain), input[..i]) && chain == Chain(old(chain), out)
      {
        EncryptAppend(enc, dec, key, old(chain), input[..i], input[i..i + BLKSZ]);
        assert input[..i] + input[i..i + BLKSZ] == input[..i + BLKSZ];
        var c := enc(key, Xor(chain, input[i..i + BLKSZ]));
        OneBlock(enc, dec, key, chain, input[i..i + BLKSZ]);
        chain := c;
        out := out + c;
        i := i + BLKSZ;
      }
      assert input[..i] == input;
    }

    method DecryptBlocks(input: Bytes) returns (out: Bytes)
      requires Valid() && Aligned(input)
      modifies this
      ensures Valid() && out == Decrypt(dec, key, old(chain), input) && chain == Chain(old(chain), input)
    {
      out := [];
      var i := 0;
      while i < |input|
        invariant 0 <= i <= |input| && Aligned(input[..i]) && Whole(|input| - i) && Valid()
        invariant out == Decrypt(dec, key, old(chain), input[..i]) && chain == Chain(old(chain), input[..i])
      {
        var c := input[i..i + BLKSZ];
        DecryptAppend(enc, dec, key, old(chain), input[..i], c);
        assert input[..i] + c == input[..i + BLKSZ];
        OneBlock(enc, dec, key, chain, c);
        out := out + Xor(chain, dec(key, c));
        chain := c;
        i := i + BLKSZ;
      }
      assert input[..i] == input;
    }
  }

  /** No read is interrupted and none fails. */
  predicate Smooth(script: seq<Reply>) {
    forall i :: 0 <= i < |script| ==> script[i].AtMost?
  }

  /** Reads until the buffer is full or the stream ends; unlike `Fill`, an interruption is
      an error. */
  method FillOrEnd(src: Reader, buf: array<Byte>) returns (r: Result<nat>, eof: bool)
    requires src.Valid()
    modifies src, buf
    ensures src.Valid() && (Smooth(old(src.script)) ==> Smooth(src.script) && r.Ok?)
    ensures r.Ok? ==> && r.value <= buf.Length && r.value <= |old(src.Rest())|
                      && (eof ==> r.value == |old(src.Rest())|) && (!eof ==> r.value == buf.Length)
                      && buf[..r.value] == old(src.Rest())[..r.value] && src.Rest() == old(src.Rest())[r.value..]
  {
    var off := 0;
    eof := false;
    ghost var rest := src.Rest();
    while !eof && off < buf.Length
      invariant off <= buf.Length && off <= |rest| && src.Valid() && src.pos == old(src.pos) + off
      invariant buf[..off] == rest[..off] && src.Rest() == rest[off..] && (eof ==> off == |rest|)
      invariant Smooth(old(src.script)) ==> Smooth(src.script)
      decreases !eof, |src.data| - src.pos
    {
      var got := src.Read(buf, off);
      match got {
        case Again => return Err, eof;
        case Failed => return Err, eof;
        case Got(n) =>
          eof := n == 0;
          assert buf[..off + n] == buf[..off] + buf[off..off + n];
          assert rest[..off + n] == rest[..off] + rest[off..][..n];
          off := off + n;
      }
    }
    r := Ok(off);
  }

  /** Passing `data` through the cipher gives `out` and leaves `chain`. */
  ghost predicate Through(c: Cryptor, iv: Bytes, data: Bytes, chain: Bytes, out: Bytes) {
    && Inverse(c.enc, c.dec) && IsBlock(iv) && Aligned(data)
    && out == c.Run(iv, data) && chain == c.After(iv, data)
  }

  lemma ThroughNothing(c: Cryptor, iv: Bytes)
    requires Inverse(c.enc, c.dec) && IsBlock(iv)
    ensures Through(c, iv, [], iv, [])
  {
    OneBlock(c.enc, c.dec, c.key, iv, iv);
  }

  lemma ThroughBoth(c: Cryptor, iv: Bytes, a: Bytes, mid: Bytes, one: Bytes, b: Bytes, chain: Bytes, two: Bytes)
    requires Through(c, iv, a, mid, one) && Through(c, mid, b, chain, two)
    ensures Through(c, iv, a + b, chain, one + two)
  {
    hide Encrypt, Decrypt, Inverse, Aligned, Chain, Cryptor.Run, Cryptor.After;
    c.RunAppend(iv, a, b);
    assert Through(c, iv, a + b, chain, one + two);
  }

  /** One turn of the loop: a buffer is filled, passed through the cipher and written. */
  method CryptBuffer(dst: Output, src: Reader, c: Cryptor, buf: array<Byte>)
    returns (r: Result<nat>, eof: bool, ghost out: Bytes)
    requires src.Valid() && c.Valid() && Aligned(src.Rest()) && buf.Length == 4096
    modifies dst, src, c, buf
    ensures src.Valid() && c.Valid() && (Smooth(old(src.script)) ==> Smooth(src.script) && r.Ok?)
    ensures r.Ok? ==>
              && r.value <= |old(src.Rest())| && src.Rest() == old(src.Rest())[r.value..] && Aligned(src.Rest())
              && (if eof then r.value == |old(src.Rest())| else r.value == 4096)
              && dst.content == old(dst.content) + out
              && Through(c, old(c.chain), old(src.Rest())[..r.value], c.chain, out)
  {
    out := [];
    r, eof := FillOrEnd(src, buf);
    if r.Ok? {
      var part := buf[..r.value];
      WholeIff(4096);
      WholeSum(r.value, |src.Rest()|);
      assert Aligned(part);
      hide Encrypt, Decrypt, Xor, Chain, Cryptor.Run, Cryptor.After;
      var written := c.Crypt(part);
      dst.content := dst.content + written;
      out := written;
      assert Through(c, old(c.chain), part, c.chain, out);
    }
  }

  /** The loop: on success all of the input has gone through. */
  method CryptLoop(dst: Output, src: Reader, c: Cryptor) returns (ok: bool, ghost written: Bytes)
    requires src.Valid() && c.Valid() && Aligned(src.Rest())
    modifies dst, src, c
    ensures src.Valid() && c.Valid() && (Smooth(old(src.script)) ==> ok)
    ensures ok ==> && dst.content == old(dst.content) + written
                   && Through(c, old(c.chain), old(src.Rest()), c.chain, written)
  {
    hide Smooth, Through, Inverse, Aligned;
    var buf := new Byte[4096];
    var eof := false;
    ghost var rest, iv := src.Rest(), c.chain;
    ghost var k: nat := 0;
    written := [];
    ThroughNothing(c, iv);
    assert rest[..0] == [] && rest[0..] == rest;
    while !eof
      invariant src.Valid() && c.Valid() && fresh(buf) && buf.Length == 4096 && k <= |rest|
      invariant src.Rest() == rest[k..] && Aligned(src.Rest()) && dst.content == old(dst.content) + written
      invariant Through(c, iv, rest[..k], c.chain, written) && (eof ==> k == |rest|)
      invariant Smooth(old(src.script)) ==> Smooth(src.script)
      decreases !eof, |rest| - k
    {
      ghost var chain := c.chain;
      var r: Result<nat>;
      ghost var out: Bytes;
      r, eof, out := CryptBuffer(dst, src, c, buf);
      if r.Err? { return false, []; }
      ThroughBoth(c, iv, rest[..k], chain, written, rest[k..][..r.value], c.chain, out);
      assert rest[..k] + rest[k..][..r.value] == rest[..k + r.value];
      written := written + out;
      k := k + r.value;
    }
    assert rest[..k] == rest;
    ok := true;
  }

  /** `crypt_stream`: whatever the pattern of reads, the output is that of one call on the
      whole input. */
  method CryptStream(dst: Output, src: Reader, c: Cryptor) returns (ok: bool)
    requires src.Valid() && c.Valid() && Aligned(src.Rest())
    modifies dst, src, c
    ensures src.Valid() && c.Valid() && (Smooth(old(src.script)) ==> ok)
    ensures ok ==> dst.content == old(dst.content) + c.Run(old(c.chain), old(src.Rest()))
  {
    ghost var written: Bytes;
    ok, written := CryptLoop(dst, src, c);
  }

  // ----- Files -----

  /** `write_cbc_prefix`, with the random bytes as a parameter. */
  method WriteCbcPrefix(dst: Output, enc: Cipher, dec: Cipher, master: Bytes, random: Bytes)
    returns (key: Bytes, iv: Bytes)
    requires Inverse(enc, dec) && |random| == 2 * BLKSZ
    modifies dst
    ensures key == random[..BLKSZ] && iv == random[BLKSZ..]
    ensures dst.content == old(dst.content) + Prefix(enc, master, key, iv)
  {
    var c := new Cryptor(enc, dec, master, ZERO, true);
    var src := new Reader(random, []);
    WholeIff(|random|);
    assert src.Rest() == random && Smooth(src.script);
    hide Encrypt, Decrypt, Inverse, Xor, Chain, Aligned;
    var _ := CryptStream(dst, src, c);
    key, iv := random[..BLKSZ], random[BLKSZ..];
    assert key + iv == random;
  }

  /** `encrypt_whole_dir`. */
  method EncryptWholeDir(dst: Output, src: Reader, enc: Cipher, dec: Cipher, master: Bytes, random: Bytes)
      returns (ok: bool, key: Bytes)
    requires Inverse(enc, dec) && |random| == 2 * BLKSZ && src.Valid() && Aligned(src.Rest()) && dst.content == []
    modifies dst, src
    ensures key == random[..BLKSZ] && (Smooth(old(src.script)) ==> ok)
    ensures ok ==> dst.content == WholeDir(enc, master, key, random[BLKSZ..], old(src.Rest()))
  {
    var iv;
    key, iv := WriteCbcPrefix(dst, enc, dec, master, random);
    var c := new Cryptor(enc, dec, key, iv, true);
    ok := CryptStream(dst, src, c);
  }

  /** `encrypt_append_dir` at the end of a file, with the block that `dir_append_iv` takes
      from it. */
  method EncryptAppendDir(file: Output, src: Reader, enc: Cipher, dec: Cipher, key: Bytes) returns (ok: bool)
    requires Inverse(enc, dec) && |file.content| >= BLKSZ && src.Valid() && Aligned(src.Rest())
    modifies file, src
    ensures Smooth(old(src.script)) ==> ok
    ensures ok ==> file.content == Appended(enc, key, old(file.content), [old(src.Rest())])
  {
    var c := new Cryptor(enc, dec, key, AppendIv(file.content), true);
    ghost var more := [src.Rest()];
    assert more[1..] == [];
    ok := CryptStream(file, src, c);
  }

  /** `read_cbc_prefix`: the first two blocks hold the session key and the initial block. */
  method ReadCbcPrefix(head: Bytes, enc: Cipher, dec: Cipher, master: Bytes)
    returns (key: Bytes, iv: Bytes)
    requires Inverse(enc, dec) && |head| == 2 * BLKSZ
    ensures Aligned(head) && IsBlock(key) && IsBlock(iv) && key + iv == Decrypt(dec, master, ZERO, head)
  {
    var plain := new Output();
    var c := new Cryptor(enc, dec, master, ZERO, false);
    var src := new Reader(head, []);
    WholeIff(|head|);
    assert src.Rest() == head && Smooth(src.script);
    DecryptLength(enc, dec, master, ZERO, head);
    hide Decrypt, Encrypt, Xor;
    var _ := CryptStream(plain, src, c);
    key, iv := plain.content[..BLKSZ], plain.content[BLKSZ..];
    assert key + iv == plain.content;
  }

  /** `decrypt_whole_dir`. */
  method DecryptWholeDir(dst: Output, file: Bytes, script: seq<Reply>, enc: Cipher, dec: Cipher, master: Bytes)
    returns (ok: bool, key: Bytes)
    requires Inverse(enc, dec) && Aligned(file) && dst.content == []
    modifies dst
    ensures ok ==> |file| >= 2 * BLKSZ && (key, dst.content) == Opened(dec, master, file)
    ensures |file| >= 2 * BLKSZ && Smooth(script) ==> ok
  {
    if |file| < 2 * BLKSZ { return false, []; }
    hide Decrypt, Encrypt, Xor;
    var iv: Bytes;
    key, iv := ReadCbcPrefix(file[..2 * BLKSZ], enc, dec, master);
    assert (key + iv)[..BLKSZ] == key && (key + iv)[BLKSZ..] == iv;
    var body := new Cryptor(enc, dec, key, iv, false);
    var rest := new Reader(file[2 * BLKSZ..], script);
    assert rest.Rest() == file[2 * BLKSZ..] && Whole(|file| - BLKSZ);
    ok := CryptStream(dst, rest, body);
    assert ok ==> dst.content == Decrypt(dec, key, iv, file[2 * BLKSZ..]);
  }

  // ----- The exception -----

  /** A cipher that changes nothing. */
  function Identity(): Cipher { (_, b) => b }

  /** With nothing written at first, the first append is chained to the last block of the
      prefix and decrypted from the initial block: one block of zeroes comes back changed. */
  lemma EmptyFirstChunkFails(master: Bytes)
    ensures var id, key, iv, block := Identity(), Ones(), ZERO, ZERO;
            var file := Appended(id, key, WholeDir(id, master, key, iv, []), [block]);
            |file| >= 2 * BLKSZ && Aligned(file) && Opened(id, master, file) != (key, [] + Flat([block]))
  {
    var id, key, iv := Identity(), Ones(), ZERO;
    assert Inverse(id, id);
    AppendableRoundTrip(id, id, master, key, iv, [], [ZERO]);
    assert [ZERO][1..] == [] && Flat([ZERO]) == ZERO + [] == ZERO;
    IdentityPrefix(master);
  }

  function Ones(): Bytes { [1, 1, 1, 1, 1, 1, 1, 1, 1, 1, 1, 1, 1, 1, 1, 1] }

  lemma IdentityPrefix(master: Bytes)
    ensures Inverse(Identity(), Identity())
    ensures AppendIv(Prefix(Identity(), master, Ones(), ZERO)) != ZERO
  {
    var id, key := Identity(), Ones();
    assert Inverse(id, id);
    EncryptAppend(id, id, master, ZERO, key, ZERO);
    OneBlock(id, id, master, ZERO, key);
    var c1 := Xor(ZERO, key);
    OneBlock(id, id, master, c1, ZERO);
    var c2 := Xor(c1, ZERO);
    assert Prefix(id, master, key, ZERO) == c1 + c2;
    assert AppendIv(c1 + c2) == c2;
    ZeroXor();
    assert c2[0] == 1;
  }

  lemma ZeroXor()
    ensures BitXor(0, 1) == 1 && BitXor(1, 0) == 1
  {
  }
}
