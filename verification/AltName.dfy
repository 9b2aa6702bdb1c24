/** `gen_alternate_name` (src/reconcile/compute.rs:26-69): a fresh name built from the
    stem of the old one, a tilde, a number and the old extension. */
module AltName {
  import opened Defs

  /** Index of the last `c` in `s`, or -1. */
  function LastIndex(s: string, c: char): (i: int)
    ensures -1 <= i < |s|
    ensures i >= 0 ==> s[i] == c
    ensures forall j :: i < j < |s| ==> s[j] != c
  {
    if s == [] then -1
    else if s[|s| - 1] == c then |s| - 1
    else LastIndex(s[..|s| - 1], c)
  }

  /** The extension starts at the last dot, unless that dot starts the name. */
  function Stem(name: Name): string {
    var dot := LastIndex(name, '.');
    if dot <= 0 then name else name[..dot]
  }

  function Extension(name: Name): string {
    var dot := LastIndex(name, '.');
    if dot <= 0 then "" else name[dot..]
  }

  function Base(name: Name): string {
    var stem := Stem(name);
    var tilde := LastIndex(stem, '~');
    if tilde >= 0 then stem[..tilde + 1] else stem + "~"
  }

  function Digit(d: nat): char
    requires d < 10
  {
    (d + '0' as int) as char
  }

  function Decimal(k: nat): (s: string)
    ensures |s| > 0 && forall i :: 0 <= i < |s| ==> '0' <= s[i] <= '9'
  {
    if k < 10 then [Digit(k)] else Decimal(k / 10) + [Digit(k % 10)]
  }

  lemma {:induction false} DecimalInjective(j: nat, k: nat)
    requires Decimal(j) == Decimal(k)
    ensures j == k
  {
    var s := Decimal(j);
    assert s[|s| - 1] == Digit(j % 10) == Digit(k % 10);
    if 10 <= j && 10 <= k {
      assert s[..|s| - 1] == Decimal(j / 10) == Decimal(k / 10);
      DecimalInjective(j / 10, k / 10);
    }
  }

  /** The `k`-th name to try. */
  function Candidate(name: Name, k: nat): Name {
    Base(name) + Decimal(k) + Extension(name)
  }

  lemma CandidateInjective(name: Name, j: nat, k: nat)
    requires Candidate(name, j) == Candidate(name, k)
    ensures j == k
  {
    var b, e, s := |Base(name)|, |Extension(name)|, Candidate(name, j);
    assert s[b..|s| - e] == Decimal(j) == Decimal(k);
    DecimalInjective(j, k);
  }

  /** The first number from `k` on whose candidate is free. */
  function FirstFree(name: Name, k: nat, used: set<Name>): (r: nat)
    ensures k <= r <= k + |used|
    decreases |used|
  {
    if Candidate(name, k) !in used then k
    else FirstFree(name, k + 1, used - {Candidate(name, k)})
  }

  lemma {:induction false} FirstFreeIsFirst(name: Name, k: nat, used: set<Name>)
    ensures Candidate(name, FirstFree(name, k, used)) !in used
    ensures forall j :: k <= j < FirstFree(name, k, used) ==> Candidate(name, j) in used
    decreases |used|
  {
    var here := Candidate(name, k);
    if here in used {
      FirstFreeIsFirst(name, k + 1, used - {here});
      var r := FirstFree(name, k, used);
      if Candidate(name, r) == here { CandidateInjective(name, r, k); }
    }
  }

  /** The name a split gives to the renamed file. */
  function Alternate(name: Name, used: set<Name>): (r: Name)
    ensures r !in used
  {
    FirstFreeIsFirst(name, 1, used);
    Candidate(name, FirstFree(name, 1, used))
  }

  // ----- What the new name looks like -----

  /** The number that a string of digits stands for. */
  function Value(d: string): int {
    if d == "" then 0 else 10 * Value(d[..|d| - 1]) + (d[|d| - 1] as int - '0' as int)
  }

  /** `d` is the number `k` in digits, without leading zeroes. */
  predicate Spells(d: string, k: nat) {
    d != "" && (forall i :: 0 <= i < |d| ==> '0' <= d[i] <= '9') && (d[0] == '0' ==> d == "0") && Value(d) == k
  }

  lemma {:induction false} DecimalSpells(k: nat)
    ensures Spells(Decimal(k), k)
  {
    if k < 10 {
      assert Decimal(k)[..0] == "" && Value("") == 0;
    } else {
      var front := Decimal(k / 10);
      DecimalSpells(k / 10);
      assert Decimal(k) == front + [Digit(k % 10)];
      assert Decimal(k)[..|front|] == front && Decimal(k)[0] == front[0];
      if front == "0" { assert Value(front) == 0 by { assert front[..0] == "" && Value("") == 0; } }
    }
  }

  lemma {:induction false} ValueBound(d: string)
    requires d != "" && d[0] != '0' && forall i :: 0 <= i < |d| ==> '0' <= d[i] <= '9'
    ensures Value(d) > 0 && (|d| > 1 ==> Value(d) >= 10)
  {
    if |d| > 1 {
      ValueBound(d[..|d| - 1]);
    } else {
      assert d[..0] == "" && Value("") == 0;
    }
  }

  /** There is one way to spell a number. */
  lemma {:induction false} SpellsOnce(d: string, k: nat)
    requires Spells(d, k)
    ensures d == Decimal(k)
    decreases |d|
  {
    var front, last := d[..|d| - 1], d[|d| - 1] as int - '0' as int;
    if |d| == 1 {
      assert front == "" && Value(front) == 0;
      assert d == [Digit(k)];
    } else {
      ValueBound(front);
      assert k == 10 * Value(front) + last;
      SpellsOnce(front, Value(front));
      assert k / 10 == Value(front) && k % 10 == last;
      assert d == front + [d[|d| - 1]];
    }
  }

  /** `e` is what `x + e` has from its last dot on, unless that dot comes first. */
  predicate Cut(x: string, e: string) {
    if e == "" then forall j :: 0 < j < |x| ==> x[j] != '.'
    else x != "" && e[0] == '.' && forall j :: 0 < j < |e| ==> e[j] != '.'
  }

  /** `b` is `x` up to its last tilde, or `x` and a tilde if it has none. */
  predicate UpToTilde(x: string, b: string) {
    || ('~' !in x && b == x + "~")
    || (b <= x && b != "" && b[|b| - 1] == '~' && '~' !in x[|b|..])
  }

  /** `r` is `name` with the number `k` after the last tilde of its stem, or after a tilde
      added to the stem, and with its own extension. */
  ghost predicate Numbered(name: Name, k: nat, r: Name) {
    exists x, e, b, d | Parts(name, x, e, b, d) :: Spells(d, k) && r == b + d + e
  }

  predicate Parts(name: Name, x: string, e: string, b: string, d: string) {
    name == x + e && Cut(x, e) && UpToTilde(x, b) && d != ""
  }

  lemma CutOnce(name: Name, x: string, e: string)
    requires name == x + e && Cut(x, e)
    ensures x == Stem(name) && e == Extension(name)
  {
    if e == "" {
      assert x == name;
      LastIndexAt(name, '.', if name != "" && name[0] == '.' then 0 else -1);
    } else {
      LastIndexAt(name, '.', |x|);
      assert name[..|x|] == x && name[|x|..] == e;
    }
  }

  lemma UpToTildeOnce(name: Name, b: string)
    requires UpToTilde(Stem(name), b)
    ensures b == Base(name)
  {
    var x := Stem(name);
    if '~' !in x && b == x + "~" {
      LastIndexAt(x, '~', -1);
    } else {
      assert forall j :: |b| <= j < |x| ==> x[j] == x[|b|..][j - |b|];
      LastIndexAt(x, '~', |b| - 1);
    }
  }

  lemma BaseUpToTilde(name: Name)
    ensures UpToTilde(Stem(name), Base(name))
  {
    var x := Stem(name);
    var i := LastIndex(x, '~');
    if i >= 0 {
      assert x[..i + 1] <= x;
      var rest := x[i + 1..];
      forall j | 0 <= j < |rest| ensures rest[j] != '~' { assert rest[j] == x[i + 1 + j]; }
    }
  }

  lemma StemCut(name: Name)
    ensures name == Stem(name) + Extension(name) && Cut(Stem(name), Extension(name))
  {
    ExtensionShape(name);
  }

  /** The candidates are the numbered names. */
  lemma NumberedIff(name: Name, k: nat, r: Name)
    ensures Numbered(name, k, r) <==> r == Candidate(name, k)
  {
    hide Spells, Decimal, Stem, Extension, Base, Cut, UpToTilde, LastIndex;
    var x, e, b, d := Stem(name), Extension(name), Base(name), Decimal(k);
    StemCut(name);
    BaseUpToTilde(name);
    DecimalSpells(k);
    assert Parts(name, x, e, b, d);
    if Numbered(name, k, r) {
      var x', e', b', d' :| Parts(name, x', e', b', d') && Spells(d', k) && r == b' + d' + e';
      CutOnce(name, x', e');
      UpToTildeOnce(name, b');
      SpellsOnce(d', k);
    }
  }

  /** The search loop: the numbers 1, 2, ... in turn. It stops within one try more than
      there are names in use, so its 64-bit counter cannot run out first. */
  method GenAlternateName(name: Name, used: set<Name>) returns (r: Name, tries: nat)
    ensures r == Alternate(name, used) && r !in used
    ensures 1 <= tries <= |used| + 1
    ensures Numbered(name, tries, r)
    ensures forall j, m :: 1 <= j < tries && Numbered(name, j, m) ==> m in used
  {
    FirstFreeIsFirst(name, 1, used);
    ghost var first := FirstFree(name, 1, used);
    tries := 1;
    r := Candidate(name, tries);
    while r in used
      invariant 1 <= tries <= first
      invariant r == Candidate(name, tries)
      invariant forall j :: 1 <= j < tries ==> Candidate(name, j) in used
      decreases first - tries
    {
      tries := tries + 1;
      r := Candidate(name, tries);
    }
    NumberedIff(name, tries, r);
    forall j, m | 1 <= j < tries && Numbered(name, j, m) ensures m in used { NumberedIff(name, j, m); }
  }

  /** The same of the name in the specification of a split. */
  lemma AlternateIsNumbered(name: Name, used: set<Name>)
    ensures exists k :: 1 <= k <= |used| + 1 && Numbered(name, k, Alternate(name, used))
                        && forall j, m :: 1 <= j < k && Numbered(name, j, m) ==> m in used
  {
    var k := FirstFree(name, 1, used);
    FirstFreeIsFirst(name, 1, used);
    NumberedIff(name, k, Alternate(name, used));
    forall j, m | 1 <= j < k && Numbered(name, j, m) ensures m in used { NumberedIff(name, j, m); }
  }

  // ----- Alternates of alternates -----

  lemma LastIndexAt(s: string, c: char, i: int)
    requires -1 <= i < |s| && (i >= 0 ==> s[i] == c)
    requires forall j :: i < j < |s| ==> s[j] != c
    ensures LastIndex(s, c) == i
  {
  }

  /** What a base and a decimal are made of. */
  lemma BaseShape(name: Name)
    ensures var b := Base(name);
            && |b| > 0 && b[|b| - 1] == '~' && (forall j :: 0 < j < |b| && b[j] == '.' ==> LastIndex(name, '.') > 0)
  {
    var stem, dot := Stem(name), LastIndex(name, '.');
    if dot <= 0 { assert forall j :: 0 < j < |stem| ==> stem[j] != '.'; }
  }

  /** A stem followed by a number and an extension is taken apart at the extension. */
  lemma CandidateParts(b: string, d: string, e: string)
    requires |b| > 0 && |d| > 0 && forall j :: 0 <= j < |d| ==> d[j] != '.' && d[j] != '~'
    requires if e == "" then forall j :: 0 < j < |b| ==> b[j] != '.'
             else e[0] == '.' && forall j :: 0 < j < |e| ==> e[j] != '.'
    ensures Stem(b + d + e) == b + d && Extension(b + d + e) == e
  {
    var s := b + d + e;
    if e == "" {
      assert s == b + d;
      LastIndexAt(s, '.', if s[0] == '.' then 0 else -1);
    } else {
      LastIndexAt(s, '.', |b + d|);
      assert s[..|b + d|] == b + d && s[|b + d|..] == e;
    }
  }

  lemma ExtensionShape(name: Name)
    ensures var e := Extension(name);
            if e == "" then LastIndex(name, '.') <= 0
            else e[0] == '.' && forall j :: 0 < j < |e| ==> e[j] != '.'
  {
    var dot, e := LastIndex(name, '.'), Extension(name);
    if dot > 0 {
      forall j | 0 < j < |e| ensures e[j] != '.' { assert e[j] == name[dot + j]; }
    }
  }

  /** Every alternate has the same base and extension as the name it came from, so
      splitting `foo~1.txt` gives `foo~2.txt` and never `foo~1~1.txt`. */
  lemma AlternateKeepsShape(name: Name, k: nat)
    ensures Base(Candidate(name, k)) == Base(name)
    ensures Extension(Candidate(name, k)) == Extension(name)
  {
    var b, d, e := Base(name), Decimal(k), Extension(name);
    BaseShape(name);
    ExtensionShape(name);
    CandidateParts(b, d, e);
    hide Stem, Extension, Decimal;
    LastIndexAt(b + d, '~', |b| - 1);
    assert (b + d)[..|b|] == b;
  }
}
