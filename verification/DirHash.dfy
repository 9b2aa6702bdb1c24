/** The hash of a directory's contents (src/posix/dir.rs:139-208) and how listing and editing
    keep it up to date (src/posix/replica.rs:283-433, 435-540). */
module DirHash {
  import opened Defs
  import opened BlockXfer
  import opened Cbc

  const SIZE := 32
  const INIT_HASH: Bytes := ZERO + ZERO

  datatype Entry = Entry(name: Name, data: FileData)

  /** The hash of one file: name, type, mode and content or target, but neither size nor
      modification time. */
  type Digest = Entry -> Bytes

  ghost predicate Sized(d: Digest) {
    forall e :: |d(e)| == SIZE
  }

  // ----- Toggling -----

  function Flip(s: set<Entry>, e: Entry): set<Entry> {
    if e in s then s - {e} else s + {e}
  }

  /** The entries toggled an odd number of times. */
  function OddOnes(ts: seq<Entry>): set<Entry> {
    if ts == [] then {} else Flip(OddOnes(ts[..|ts| - 1]), ts[|ts| - 1])
  }

  lemma {:induction false} OddMeansOdd(ts: seq<Entry>, e: Entry)
    ensures e in OddOnes(ts) <==> multiset(ts)[e] % 2 == 1
  {
    if ts != [] {
      var front, last := ts[..|ts| - 1], ts[|ts| - 1];
      assert ts == front + [last];
      OddMeansOdd(front, e);
    }
  }

  /** The XOR of the hashes of a set of entries. */
  ghost function Total(d: Digest, s: set<Entry>): (r: Bytes)
    requires Sized(d)
    ensures |r| == SIZE
  {
    if s == {} then INIT_HASH
    else var e :| e in s; Xor(d(e), Total(d, s - {e}))
  }

  lemma XorSwap(a: Bytes, b: Bytes, c: Bytes)
    requires |a| == |b| == |c|
    ensures Xor(a, Xor(b, c)) == Xor(b, Xor(a, c))
  {
    hide BitXor;
    forall i | 0 <= i < |a| ensures Xor(a, Xor(b, c))[i] == Xor(b, Xor(a, c))[i] { BitXorSwap(a[i], b[i], c[i]); }
  }

  lemma BitXorSwap(x: Byte, y: Byte, z: Byte)
    ensures BitXor(x, BitXor(y, z)) == BitXor(y, BitXor(x, z))
  {
  }

  /** The order of summation does not matter. */
  lemma {:induction false} TotalAny(d: Digest, s: set<Entry>, e: Entry)
    requires Sized(d) && e in s
    ensures Total(d, s) == Xor(d(e), Total(d, s - {e}))
    decreases |s|
  {
    hide Xor;
    var x :| x in s && Total(d, s) == Xor(d(x), Total(d, s - {x}));
    if x != e {
      TotalAny(d, s - {x}, e);
      TotalAny(d, s - {e}, x);
      assert s - {x} - {e} == s - {e} - {x};
      XorSwap(d(x), d(e), Total(d, s - {x} - {e}));
    }
  }

  lemma FlipTotal(d: Digest, s: set<Entry>, e: Entry)
    requires Sized(d)
    ensures Total(d, Flip(s, e)) == Xor(d(e), Total(d, s))
  {
    hide Xor;
    if e in s {
      TotalAny(d, s, e);
      XorTwice(d(e), Total(d, s - {e}));
    } else {
      TotalAny(d, s + {e}, e);
      assert s + {e} - {e} == s;
    }
  }

  // ----- The handle -----

  class DirHandle {
    const digest: Digest
    const hash: array<Byte>
    ghost var toggled: seq<Entry>

    /** The hash is the XOR over the entries toggled an odd number of times. */
    ghost predicate Valid()
      reads this, hash
    {
      Sized(digest) && hash.Length == SIZE && hash[..] == Total(digest, OddOnes(toggled))
    }

    constructor (digest: Digest)
      requires Sized(digest)
      ensures Valid() && toggled == [] && fresh(hash) && this.digest == digest
    {
      this.digest := digest;
      this.toggled := [];
      var h := new Byte[SIZE](_ => 0);
      this.hash := h;
      new;
      assert hash[..] == INIT_HASH;
    }

    method ResetHash()
      requires Valid()
      modifies this, hash
      ensures Valid() && toggled == []
    {
      var i := 0;
      while i < SIZE
        invariant 0 <= i <= SIZE && hash.Length == SIZE && forall j :: 0 <= j < i ==> hash[j] == 0
        modifies hash
      {
        hash[i] := 0;
        i := i + 1;
      }
      toggled := [];
      assert hash[..] == INIT_HASH;
    }

    method ToggleFile(e: Entry)
      requires Valid()
      modifies this, hash
      ensures Valid() && toggled == old(toggled) + [e] && hash[..] == Xor(digest(e), old(hash[..]))
    {
      var h := digest(e);
      ghost var before := hash[..];
      hide BitXor;
      var i := 0;
      while i < SIZE
        invariant 0 <= i <= SIZE && hash.Length == SIZE
        invariant forall j :: 0 <= j < i ==> hash[j] == BitXor(h[j], before[j])
        invariant forall j :: i <= j < SIZE ==> hash[j] == before[j]
        modifies hash
      {
        hash[i] := BitXor(h[i], hash[i]);
        i := i + 1;
      }
      assert hash[..] == Xor(h, before);
      FlipTotal(digest, OddOnes(toggled), e);
      assert (toggled + [e])[..|toggled|] == toggled;
      toggled := toggled + [e];
    }
  }

  // ----- Listing and editing -----

  function Entries(contents: map<Name, FileData>): set<Entry> {
    set n | n in contents :: Entry(n, contents[n])
  }

  /** Reading the data of a file without hashing it: the hash is there only if the cache has
      it. */
  function Glimpse(data: FileData, cached: bool): FileData {
    if data.Regular? && !cached then data.(hash := UNKNOWN_HASH) else data
  }

  /** A directory with its handle; each method changes the contents and toggles what the
      program toggles. */
  class Directory {
    const handle: DirHandle
    var contents: map<Name, FileData>

    ghost predicate Valid()
      reads this, handle, handle.hash
    {
      handle.Valid()
    }

    /** The handle has the hash that a fresh listing would give. */
    ghost predicate InStep()
      requires Valid()
      reads this, handle, handle.hash
    {
      handle.hash[..] == Total(handle.digest, Entries(contents))
    }

    constructor (digest: Digest, contents: map<Name, FileData>)
      requires Sized(digest)
      ensures Valid() && this.contents == contents && fresh(handle) && fresh(handle.hash) && handle.digest == digest
    {
      handle := new DirHandle(digest);
      this.contents := contents;
    }

    /** Lists the files in whatever order the file system gives them. */
    method List(order: seq<Name>)
      requires Valid() && multiset(order) == multiset(contents.Keys)
      modifies handle, handle.hash
      ensures Valid() && InStep()
    {
      handle.ResetHash();
      ghost var done: set<Name> := {};
      var i := 0;
      while i < |order|
        invariant 0 <= i <= |order| && handle.Valid() && done == set j | 0 <= j < i :: order[j]
        invariant OddOnes(handle.toggled) == set n | n in done && n in contents :: Entry(n, contents[n])
      {
        var n := order[i];
        OnceOnly(order, contents.Keys, i);
        handle.ToggleFile(Entry(n, contents[n]));
        ghost var ts := handle.toggled;
        assert ts[..|ts| - 1] + [Entry(n, contents[n])] == ts;
        done := done + {n};
        i := i + 1;
      }
      AllListed(order, contents.Keys);
      assert OddOnes(handle.toggled) == Entries(contents);
    }

    method Create(n: Name, data: FileData)
      requires Valid() && InStep() && n !in contents
      modifies this, handle, handle.hash
      ensures Valid() && contents == old(contents)[n := data] && InStep()
    {
      ghost var was := contents;
      contents := contents[n := data];
      handle.ToggleFile(Entry(n, data));
      FlipTotal(handle.digest, Entries(was), Entry(n, data));
      SetEntry(was, n, data);
    }

    method Remove(n: Name)
      requires Valid() && InStep() && n in contents
      modifies this, handle, handle.hash
      ensures Valid() && contents == old(contents) - {n} && InStep()
    {
      ghost var was := contents;
      var data := contents[n];
      contents := contents - {n};
      handle.ToggleFile(Entry(n, data));
      FlipTotal(handle.digest, Entries(was), Entry(n, data));
      DropEntry(was, n);
    }

    method Update(n: Name, data: FileData)
      requires Valid() && InStep() && n in contents
      modifies this, handle, handle.hash
      ensures Valid() && contents == old(contents)[n := data] && InStep()
    {
      ghost var was := contents;
      var e1, e2 := Entry(n, contents[n]), Entry(n, data);
      contents := contents[n := data];
      handle.ToggleFile(e1);
      FlipTotal(handle.digest, Entries(was), e1);
      DropEntry(was, n);
      handle.ToggleFile(e2);
      FlipTotal(handle.digest, Entries(was - {n}), e2);
      SetEntry(was - {n}, n, data);
      assert (was - {n})[n := data] == contents;
    }

    /** Renaming looks the hash of a regular file up in the cache and does not compute it.
        Unless the digests happen not to tell a known hash from an unknown one, the handle
        stays in step exactly if the cache has the hash or there is none to have. */
    method Rename(n: Name, m: Name, cached: bool)
      requires Valid() && InStep() && n in contents && m !in contents
      modifies this, handle, handle.hash
      ensures Valid() && contents == (old(contents) - {n})[m := old(contents)[n]]
      ensures handle.hash[..] ==
          HashAfterRename(handle.digest, old(handle.hash[..]), n, m, Glimpse(old(contents)[n], cached))
      ensures cached || !HasHash(old(contents)[n]) ==> InStep()
      ensures TellsApart(handle.digest, n, m, old(contents)[n]) ==> (InStep() <==> cached || !HasHash(old(contents)[n]))
    {
      ghost var was := contents;
      var data := contents[n];
      var seen := Glimpse(data, cached);
      contents := (contents - {n})[m := data];
      ghost var h0 := handle.hash[..];
      handle.ToggleFile(Entry(n, seen));
      handle.ToggleFile(Entry(m, seen));
      RenameTotals(handle.digest, was, n, m, seen, h0);
    }
  }

  /** A regular file whose hash is known. */
  predicate HasHash(data: FileData) {
    data.Regular? && data.hash != UNKNOWN_HASH
  }

  /** What renaming makes of the hash, having seen the data as `seen`. */
  function HashAfterRename(d: Digest, h: Bytes, n: Name, m: Name, seen: FileData): Bytes
    requires Sized(d) && |h| == SIZE
  {
    Xor(d(Entry(m, seen)), Xor(d(Entry(n, seen)), h))
  }

  /** What the digests of the two names make together depends on the hash. */
  ghost predicate TellsApart(d: Digest, n: Name, m: Name, data: FileData)
    requires Sized(d)
  {
    var seen := Glimpse(data, false);
    Xor(d(Entry(n, seen)), d(Entry(m, seen))) == Xor(d(Entry(n, data)), d(Entry(m, data))) ==> seen == data
  }

  lemma XorAssoc(a: Bytes, b: Bytes, c: Bytes)
    requires |a| == |b| == |c|
    ensures Xor(a, Xor(b, c)) == Xor(Xor(b, a), c)
  {
    hide BitXor;
    forall i | 0 <= i < |a| ensures Xor(a, Xor(b, c))[i] == Xor(Xor(b, a), c)[i] { BitXorAssoc(a[i], b[i], c[i]); }
  }

  lemma BitXorAssoc(x: Byte, y: Byte, z: Byte)
    ensures BitXor(x, BitXor(y, z)) == BitXor(BitXor(y, x), z)
  {
  }

  /** Toggling `seen` at both names against toggling the data itself. */
  lemma RenameTotals(d: Digest, was: map<Name, FileData>, n: Name, m: Name, seen: FileData, h: Bytes)
    requires Sized(d) && n in was && m !in was && h == Total(d, Entries(was))
    ensures var data := was[n];
            Xor(d(Entry(m, seen)), Xor(d(Entry(n, seen)), h)) == Total(d, Entries((was - {n})[m := data])) <==>
            Xor(d(Entry(n, seen)), d(Entry(m, seen))) == Xor(d(Entry(n, data)), d(Entry(m, data)))
  {
    hide Xor;
    var data, all := was[n], Entries(was);
    var e1, e2 := Entry(n, data), Entry(m, data);
    FlipTotal(d, all, e1);
    FlipTotal(d, Flip(all, e1), e2);
    assert Entries((was - {n})[m := data]) == Flip(Flip(all, e1), e2) by { RenamedEntries(was, n, m); }
    XorAssoc(d(e2), d(e1), h);
    XorAssoc(d(Entry(m, seen)), d(Entry(n, seen)), h);
    var x, y := Xor(d(Entry(n, seen)), d(Entry(m, seen))), Xor(d(e1), d(e2));
    if Xor(x, h) == Xor(y, h) { XorCancels(x, y, h); }
  }

  lemma RenamedEntries(was: map<Name, FileData>, n: Name, m: Name)
    requires n in was && m !in was
    ensures Entries((was - {n})[m := was[n]]) == Flip(Flip(Entries(was), Entry(n, was[n])), Entry(m, was[n]))
  {
    var now := (was - {n})[m := was[n]];
    var a, b := Entries(now), Flip(Flip(Entries(was), Entry(n, was[n])), Entry(m, was[n]));
    forall e | e in a ensures e in b { var k :| k in now && e == Entry(k, now[k]); }
    forall e | e in b ensures e in a {
      if e != Entry(m, was[n]) {
        var k :| k in was && e == Entry(k, was[k]);
        assert k in now && now[k] == was[k];
      } else {
        assert m in now && now[m] == was[n];
      }
    }
  }

  lemma SetEntry(was: map<Name, FileData>, n: Name, data: FileData)
    requires n !in was
    ensures Entries(was[n := data]) == Flip(Entries(was), Entry(n, data))
  {
    var now := was[n := data];
    forall e | e in Entries(was) + {Entry(n, data)} ensures e in Entries(now) {
      if e != Entry(n, data) {
        var k :| k in was && e == Entry(k, was[k]);
        assert k in now && now[k] == was[k];
      } else {
        assert n in now && now[n] == data;
      }
    }
  }

  lemma DropEntry(was: map<Name, FileData>, n: Name)
    requires n in was
    ensures Entries(was - {n}) == Flip(Entries(was), Entry(n, was[n]))
  {
    var now := was - {n};
    forall e | e in Entries(was) && e != Entry(n, was[n]) ensures e in Entries(now) {
      var k :| k in was && e == Entry(k, was[k]);
      assert k in now && now[k] == was[k];
    }
  }

  lemma CountedTwice(order: seq<Name>, j: nat, i: nat)
    requires j < i < |order| && order[j] == order[i]
    ensures multiset(order)[order[i]] >= 2
  {
    assert order == order[..i] + [order[i]] + order[i + 1..];
    assert order[j] in order[..i];
  }

  lemma OnceOnly(order: seq<Name>, names: set<Name>, i: nat)
    requires multiset(order) == multiset(names) && i < |order|
    ensures order[i] in names && forall j :: 0 <= j < i ==> order[j] != order[i]
  {
    assert order[i] in multiset(order);
    forall j | 0 <= j < i ensures order[j] != order[i] {
      if order[j] == order[i] { CountedTwice(order, j, i); }
    }
  }

  lemma AllListed(order: seq<Name>, names: set<Name>)
    requires multiset(order) == multiset(names)
    ensures (set j | 0 <= j < |order| :: order[j]) == names
  {
    forall n | n in names ensures n in order { assert n in multiset(order); }
    forall j | 0 <= j < |order| ensures order[j] in names { assert order[j] in multiset(order); }
  }

  // ----- The exception -----

  const HASHED: FileData := Regular(0, 0, 0, 1)

  /** A digest that notices one file only. */
  function OneFileDigest(): Digest {
    e => if e == Entry("a", HASHED) then INIT_HASH[0 := 1] else INIT_HASH
  }

  /** A listed file is renamed while the cache does not know its hash: the hash of the
      directory is then not the one that a fresh listing gives. */
  lemma UncachedRenameFails()
    ensures var d, was := OneFileDigest(), map["a" := HASHED];
            var now := map["b" := HASHED];
            && Sized(d) && now == (was - {"a"})["b" := HASHED]
            && HashAfterRename(d, Total(d, Entries(was)), "a", "b", Glimpse(HASHED, false)) != Total(d, Entries(now))
  {
    var d, was := OneFileDigest(), map["a" := HASHED];
    var now := map["b" := HASHED];
    var seen := Glimpse(HASHED, false);
    assert Sized(d);
    assert now == (was - {"a"})["b" := HASHED];
    RenameTotals(d, was, "a", "b", seen, Total(d, Entries(was)));
    assert d(Entry("a", seen)) == INIT_HASH && d(Entry("b", seen)) == INIT_HASH && d(Entry("b", HASHED)) == INIT_HASH;
    ZeroXor();
    assert BitXor(0, 0) == 0;
    assert Xor(d(Entry("a", seen)), d(Entry("b", seen)))[0] == 0;
    assert Xor(d(Entry("a", HASHED)), d(Entry("b", HASHED)))[0] == 1;
  }
}
