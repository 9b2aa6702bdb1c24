/** The table of clean directories (src/posix/dao.rs:104-197): a directory is clean if it or
    any directory above it has a record. Paths begin and end with a slash. */
module CleanDirs {
  import opened Defs

  /** `q` is `p` or a directory above it. */
  predicate SlashPrefix(q: string, p: string) {
    q != [] && q <= p && q[|q| - 1] == '/'
  }

  predicate GoodPath(p: string) {
    p != [] && p[0] == '/' && p[|p| - 1] == '/'
  }

  /** Some record covers `q`. */
  ghost predicate Clean(table: map<string, HashId>, q: string) {
    exists k :: k in table && SlashPrefix(k, q)
  }

  function Without(table: map<string, HashId>, p: string): map<string, HashId> {
    map k | k in table && !SlashPrefix(k, p) :: table[k]
  }

  /** Cutting `path` after the last slash before its final one. */
  method ShorterBySlash(path: string) returns (r: Option<string>)
    requires path != []
    ensures r.None? ==> forall i :: 0 <= i < |path| - 1 ==> path[i] != '/'
    ensures r.Some? ==> && SlashPrefix(r.value, path) && |r.value| < |path|
                        && forall i :: |r.value| <= i < |path| - 1 ==> path[i] != '/'
  {
    var i := |path| - 1;
    while i > 0
      invariant 0 <= i <= |path| - 1
      invariant forall j :: i <= j < |path| - 1 ==> path[j] != '/'
    {
      i := i - 1;
      if path[i] == '/' { return Some(path[..i + 1]); }
    }
    r := None;
  }

  /** No directory lies strictly between a path and the next one up. */
  lemma NoneBetween(p: string, cur: string, next: int, k: string)
    requires SlashPrefix(cur, p) && 0 <= next < |cur| && SlashPrefix(k, p) && |k| <= |cur|
    requires forall i :: next <= i < |cur| - 1 ==> cur[i] != '/'
    ensures k == cur || |k| <= next
  {
    assert k == p[..|k|] && cur == p[..|cur|];
    if |k| < |cur| { assert cur[|k| - 1] == k[|k| - 1]; }
  }

  class CleanTable {
    var table: map<string, HashId>

    constructor ()
      ensures table == map[]
    {
      table := map[];
    }

    method SetDirClean(path: string, hash: HashId)
      requires GoodPath(path)
      modifies this
      ensures table == old(table)[path := hash]
    {
      table := table[path := hash];
    }

    /** Removes the records of `p` and of everything above it, and no others. */
    method SetDirDirty(p: string)
      requires GoodPath(p)
      modifies this
      ensures table == Without(old(table), p)
    {
      var path := p;
      ghost var was := table;
      ghost var left := |p| + 1;
      while true
        invariant SlashPrefix(path, p) && path[0] == '/' && |path| < left
        invariant forall k :: SlashPrefix(k, p) && |k| < left ==> |k| <= |path|
        invariant table.Keys <= was.Keys && forall k :: k in table ==> table[k] == was[k]
        invariant forall k :: k in was ==> (k in table <==> !(SlashPrefix(k, p) && |k| >= left))
        decreases |path|
      {
        table := table - {path};
        ghost var cut := |path|;
        var shorter := ShorterBySlash(path);
        forall k | SlashPrefix(k, p) && |k| <= cut
            ensures k == path || |k| <= if shorter.Some? then |shorter.value| else 0 {
          NoneBetween(p, path, if shorter.Some? then |shorter.value| else 0, k);
        }
        left := cut;
        if shorter.None? { break; }
        path := shorter.value;
      }
      forall k | k in was ensures k in table <==> !SlashPrefix(k, p) { }
    }

    method IsDirClean(q: string) returns (clean: bool)
      requires GoodPath(q)
      ensures clean <==> Clean(table, q)
    {
      var path := q;
      while true
        invariant SlashPrefix(path, q) && path[0] == '/'
        invariant forall k :: k in table && SlashPrefix(k, q) ==> |k| <= |path|
        decreases |path|
      {
        if path in table { return true; }
        var shorter := ShorterBySlash(path);
        ghost var next := if shorter.Some? then |shorter.value| else 0;
        forall k | k in table && SlashPrefix(k, q) ensures |k| <= next { NoneBetween(q, path, next, k); }
        if shorter.None? { return false; }
        path := shorter.value;
      }
    }

    method SetAllDirsDirty()
      modifies this
      ensures table == map[]
    {
      table := map[];
    }
  }

  /** After `p` is marked dirty exactly those paths are clean that a record covers which
      does not cover `p`: neither `p` nor anything above it, but directories below it and
      beside it that have a record of their own. */
  lemma DirtyExactly(table: map<string, HashId>, p: string, q: string)
    ensures Clean(Without(table, p), q) <==> exists k :: k in table && SlashPrefix(k, q) && !SlashPrefix(k, p)
    ensures SlashPrefix(q, p) ==> !Clean(Without(table, p), q)
    ensures q in table && SlashPrefix(q, q) && !SlashPrefix(q, p) ==> Clean(Without(table, p), q)
  {
    if Clean(Without(table, p), q) {
      var k :| k in Without(table, p) && SlashPrefix(k, q);
    }
    if k :| k in table && SlashPrefix(k, q) && !SlashPrefix(k, p) { assert k in Without(table, p); }
  }

  /** A record covers its directory and everything below, and nothing else becomes clean. */
  lemma CleanExactly(table: map<string, HashId>, p: string, hash: HashId, q: string)
    requires GoodPath(p)
    ensures Clean(table[p := hash], q) <==> Clean(table, q) || SlashPrefix(p, q)
  {
    var t := table[p := hash];
    if SlashPrefix(p, q) { assert p in t; }
    if Clean(table, q) {
      var k :| k in table && SlashPrefix(k, q);
      assert k in t;
    }
  }
}
