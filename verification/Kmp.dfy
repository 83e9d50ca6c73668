/** Knuth-Morris-Pratt search, as the TLS server-name rule uses it. */
module Kmp {
  import opened Bytes

  /** p[..k] is a proper border of p[..n]: both a prefix and a suffix of it. */
  ghost predicate IsBorder(p: seq<Byte>, n: nat, k: nat)
    requires n <= |p|
  {
    k < n && p[..k] == p[n - k..n]
  }

  ghost predicate IsLongestBorder(p: seq<Byte>, n: nat, k: nat)
    requires n <= |p|
  {
    IsBorder(p, n, k) && forall m: nat :: IsBorder(p, n, m) ==> m <= k
  }

  ghost predicate OccursAt(text: seq<Byte>, p: seq<Byte>, s: nat) {
    s + |p| <= |text| && text[s..s + |p|] == p
  }

  /** No border of p[..i] that the byte p[i] would extend is longer than j. */
  ghost predicate Ceiling(p: seq<Byte>, i: nat, j: nat)
    requires i < |p|
  {
    forall k: nat :: IsBorder(p, i, k) && p[k] == p[i] ==> k <= j
  }

  /** The proper borders of p[..i+1] are the empty one and the borders of p[..i] that p[i] extends. */
  lemma BorderExtends(p: seq<Byte>, i: nat, k: nat)
    requires 0 < i < |p|
    ensures IsBorder(p, i + 1, k + 1) <==> IsBorder(p, i, k) && p[k] == p[i]
  {
    if k < i {
      assert p[..k + 1] == p[..k] + [p[k]];
      assert p[i - k..i + 1] == p[i - k..i] + [p[i]];
    }
  }

  lemma LongestOfExtension(p: seq<Byte>, i: nat, j: nat, n: nat)
    requires 0 < i < |p| && Ceiling(p, i, j) && IsBorder(p, i, j)
    requires if p[i] == p[j] then n == j + 1 else j == 0 && n == 0
    ensures IsLongestBorder(p, i + 1, n) && IsBorder(p, i + 1, n)
    ensures i + 1 < |p| ==> Ceiling(p, i + 1, n)
  {
    BorderExtends(p, i, j);
    forall m: nat {:trigger p[..m]} | m < i + 1 && IsBorder(p, i + 1, m) ensures m <= n {
      if m > 0 { BorderExtends(p, i, m - 1); }
    }
  }

  /** Of two borders of p[..i] the shorter is a border of the longer, and conversely. */
  lemma BorderOfBorder(p: seq<Byte>, i: nat, j: nat, k: nat)
    requires i <= |p| && k < j && IsBorder(p, i, j)
    ensures IsBorder(p, i, k) <==> IsBorder(p, j, k)
  {
  }

  lemma FallBack(p: seq<Byte>, i: nat, j: nat, b: nat)
    requires 0 < j < i < |p| && IsBorder(p, i, j) && Ceiling(p, i, j)
    requires p[i] != p[j] && IsLongestBorder(p, j, b)
    ensures IsBorder(p, i, b) && Ceiling(p, i, b) && b < j
  {
    BorderOfBorder(p, i, j, b);
    forall k: nat | IsBorder(p, i, k) && p[k] == p[i] ensures k <= b {
      BorderOfBorder(p, i, j, k);
    }
  }

  /** The first n entries of a table are the longest border lengths. */
  ghost predicate TableOk(p: seq<Byte>, t: seq<nat>, n: nat) {
    n <= |t| == |p| && forall m :: 0 <= m < n ==> IsLongestBorder(p, m + 1, t[m])
  }

  lemma TableAt(p: seq<Byte>, t: seq<nat>, n: nat, m: nat)
    requires TableOk(p, t, n) && m < n
    ensures |t| == |p| && n <= |p| && IsLongestBorder(p, m + 1, t[m]) && t[m] <= m
  {
  }

  lemma TableGrows(p: seq<Byte>, t: seq<nat>, n: nat, v: nat)
    requires TableOk(p, t, n) && n < |p| && IsLongestBorder(p, n + 1, v)
    ensures TableOk(p, t[n := v], n + 1)
  {
  }

  /** table[i] is the length of the longest proper border of pattern[..i+1]; the loop runs at
      most 2 * (|pattern| - 1) times. */
  method BuildKmpTable(pattern: seq<Byte>) returns (table: array<nat>, ghost steps: nat)
    ensures TableOk(pattern, table[..], |pattern|)
    ensures pattern != [] ==> steps <= 2 * (|pattern| - 1)
  {
    table := new nat[|pattern|](_ => 0);
    var i: nat, j: nat := 1, 0;
    steps := 0;
    if pattern != [] { FirstEntry(pattern, table[..]); }
    hide IsBorder, IsLongestBorder, Ceiling, TableOk;
    while i < |pattern|
      invariant table.Length == |pattern|
      invariant 0 <= j < i
      invariant pattern != [] ==> i <= |pattern| && IsBorder(pattern, i, j) && TableOk(pattern, table[..], i)
      invariant i < |pattern| ==> Ceiling(pattern, i, j)
      invariant pattern != [] ==> steps <= 2 * i - j - 2
      decreases 2 * |pattern| - (2 * i - j)
    {
      steps := steps + 1;
      ghost var t := table[..];
      if pattern[i] == pattern[j] {
        LongestOfExtension(pattern, i, j, j + 1);
        TableGrows(pattern, t, i, j + 1);
        j := j + 1;
        table[i] := j;
        assert table[..] == t[i := j];
        i := i + 1;
      } else if j != 0 {
        TableAt(pattern, t, i, j - 1);
        FallBack(pattern, i, j, table[j - 1]);
        j := table[j - 1];
      } else {
        LongestOfExtension(pattern, i, 0, 0);
        TableGrows(pattern, t, i, 0);
        table[i] := 0;
        assert table[..] == t[i := 0];
        i := i + 1;
      }
    }
    if pattern == [] { EmptyTable(table[..]); }
  }

  lemma EmptyTable(t: seq<nat>)
    requires t == []
    ensures TableOk([], t, 0)
  {
  }

  lemma FirstEntry(p: seq<Byte>, t: seq<nat>)
    requires p != [] && |t| == |p| && t[0] == 0
    ensures TableOk(p, t, 1) && IsBorder(p, 1, 0) && (|p| > 1 ==> Ceiling(p, 1, 0))
  {
  }

  /** After j matched bytes ending at i and a mismatch, no occurrence starts before the shift
      that the longest border allows. */
  lemma ShiftSkipsNothing(text: seq<Byte>, p: seq<Byte>, i: nat, j: nat, b: nat, s: nat)
    requires 0 < j <= i < |text| && j < |p| && IsLongestBorder(p, j, b)
    requires text[i - j..i] == p[..j] && text[i] != p[j]
    requires i - j <= s < i - b
    ensures !OccursAt(text, p, s)
  {
    if OccursAt(text, p, s) {
      var k := i - s;
      assert text[s..s + |p|][k] == text[i];
      if k < j {
        assert p[..k] == text[s..s + |p|][..k] == text[s..i];
        assert text[s..i] == text[i - j..i][j - k..] == p[j - k..j];
        assert IsBorder(p, j, k);
      }
    }
  }

  lemma ShiftKeepsMatch(text: seq<Byte>, p: seq<Byte>, i: nat, j: nat, b: nat)
    requires 0 < j <= i < |text| && j < |p| && IsLongestBorder(p, j, b)
    requires text[i - j..i] == p[..j] && text[i] != p[j]
    requires forall s: nat :: s < i - j ==> !OccursAt(text, p, s)
    ensures b < j && text[i - b..i] == p[..b]
    ensures forall s: nat :: s < i - b ==> !OccursAt(text, p, s)
  {
    assert text[i - b..i] == text[i - j..i][j - b..] == p[j - b..j];
    forall s: nat | s < i - b ensures !OccursAt(text, p, s) {
      if i - j <= s { ShiftSkipsNothing(text, p, i, j, b, s); }
    }
  }

  lemma MatchGrows(text: seq<Byte>, p: seq<Byte>, i: nat, j: nat)
    requires j <= i < |text| && j < |p| && text[i - j..i] == p[..j] && text[i] == p[j]
    ensures text[i - j..i + 1] == p[..j + 1]
    ensures j + 1 == |p| ==> OccursAt(text, p, i - j)
  {
    assert text[i - j..i + 1] == text[i - j..i] + [text[i]];
    assert p[..j + 1] == p[..j] + [p[j]];
  }

  lemma NoMatchHere(text: seq<Byte>, p: seq<Byte>, i: nat)
    requires i < |text| && p != [] && text[i] != p[0]
    ensures !OccursAt(text, p, i)
  {
  }

  lemma NoRoomLeft(text: seq<Byte>, p: seq<Byte>, j: nat)
    requires j < |p| && j <= |text| && forall s: nat :: s < |text| - j ==> !OccursAt(text, p, s)
    ensures forall s: nat :: !OccursAt(text, p, s)
  {
  }

  /** The least index at which the pattern occurs, None exactly when it occurs nowhere; the loop
      runs at most 2 * |text| times. */
  method KmpSearch(text: seq<Byte>, pattern: seq<Byte>) returns (r: Option<nat>, ghost steps: nat)
    ensures r.Some? ==> OccursAt(text, pattern, r.value) && forall s: nat :: s < r.value ==> !OccursAt(text, pattern, s)
    ensures r.None? ==> forall s: nat :: !OccursAt(text, pattern, s)
    ensures steps <= 2 * |text|
  {
    steps := 0;
    if pattern == [] {
      assert text[0..0] == pattern;
      return Some(0), steps;
    }
    hide OccursAt, IsLongestBorder, IsBorder, TableOk;
    var table, _ := BuildKmpTable(pattern);
    var i: nat, j: nat := 0, 0;
    while i < |text|
      invariant 0 <= j <= i <= |text| && j < |pattern|
      invariant text[i - j..i] == pattern[..j]
      invariant TableOk(pattern, table[..], |pattern|)
      invariant forall s: nat :: s < i - j ==> !OccursAt(text, pattern, s)
      invariant steps <= 2 * i - j
      decreases 2 * |text| - (2 * i - j)
    {
      steps := steps + 1;
      if text[i] == pattern[j] {
        MatchGrows(text, pattern, i, j);
        i := i + 1;
        j := j + 1;
        if j == |pattern| {
          return Some(i - j), steps;
        }
      } else if j != 0 {
        TableAt(pattern, table[..], |pattern|, j - 1);
        ShiftKeepsMatch(text, pattern, i, j, table[j - 1]);
        j := table[j - 1];
      } else {
        NoMatchHere(text, pattern, i);
        i := i + 1;
      }
    }
    NoRoomLeft(text, pattern, j);
    return None, steps;
  }
}
