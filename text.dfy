/**
 * String helpers shared by both prompt builders: Python's `str.join`, the
 * order in which Python compares `str` values, and suffix matching.
 */
module Text {

  /** `sep.join(parts)`: the parts in order, with `sep` between neighbours. */
  function Join(parts: seq<string>, sep: string): string
  {
    if |parts| == 0 then ""
    else if |parts| == 1 then parts[0]
    else parts[0] + sep + Join(parts[1..], sep)
  }

  /** The summed length of all parts. */
  function TotalLength(parts: seq<string>): nat
  {
    if parts == [] then 0 else |parts[0]| + TotalLength(parts[1..])
  }

  /** The position at which `parts[i]` starts inside `Join(parts, sep)`. */
  function Offset(parts: seq<string>, sep: string, i: nat): nat
    requires i <= |parts|
  {
    if i == 0 then 0 else |parts[0]| + |sep| + Offset(parts[1..], sep, i - 1)
  }

  /** Joining n parts inserts exactly n - 1 separators and nothing else. */
  lemma {:induction false} JoinLength(parts: seq<string>, sep: string)
    requires |parts| > 0
    ensures |Join(parts, sep)| == TotalLength(parts) + (|parts| - 1) * |sep|
  {
    if |parts| > 1 {
      JoinLength(parts[1..], sep);
      assert (|parts| - 1) * |sep| == (|parts| - 2) * |sep| + |sep|;
    }
  }

  /** Dropping a prefix of known length shifts every slice by that length. */
  lemma SliceAfterPrefix(a: string, b: string, lo: nat, hi: nat)
    requires lo <= hi <= |b|
    ensures (a + b)[|a| + lo..|a| + hi] == b[lo..hi]
  {
    assert forall k :: 0 <= k < hi - lo ==> (a + b)[|a| + lo..|a| + hi][k] == b[lo..hi][k];
  }

  /** A slice inside the first operand of a concatenation ignores the second. */
  lemma SliceBeforeSuffix(a: string, b: string, lo: nat, hi: nat)
    requires lo <= hi <= |a|
    ensures (a + b)[lo..hi] == a[lo..hi]
  {
    assert forall k :: 0 <= k < hi - lo ==> (a + b)[lo..hi][k] == a[lo..hi][k];
  }

  /** Unfolds one step of `Join` with the separator grouped with the rest. */
  lemma JoinCons(parts: seq<string>, sep: string)
    requires |parts| > 1
    ensures Join(parts, sep) == (parts[0] + sep) + Join(parts[1..], sep)
    ensures Join(parts, sep) == parts[0] + (sep + Join(parts[1..], sep))
  {
  }

  /** Three parts joined: each pair of neighbours separated by `sep`. */
  lemma JoinThree(a: string, b: string, c: string, sep: string)
    ensures Join([a, b, c], sep) == a + sep + b + sep + c
  {
    JoinCons([a, b, c], sep);
    assert [a, b, c][1..] == [b, c];
    JoinCons([b, c], sep);
    assert [b, c][1..] == [c];
  }

  /** The next part starts one part and one separator after this one. */
  lemma {:induction false} OffsetStep(parts: seq<string>, sep: string, i: nat)
    requires i < |parts|
    ensures Offset(parts, sep, i + 1) == Offset(parts, sep, i) + |parts[i]| + |sep|
  {
    if i > 0 {
      OffsetStep(parts[1..], sep, i - 1);
    }
  }

  /** In the joined string, `parts[i]` occupies the positions from `Offset(parts, sep, i)` on. */
  lemma {:induction false} JoinPart(parts: seq<string>, sep: string, i: nat)
    requires i < |parts|
    ensures Offset(parts, sep, i) + |parts[i]| <= |Join(parts, sep)|
    ensures Join(parts, sep)[Offset(parts, sep, i)..Offset(parts, sep, i) + |parts[i]|] == parts[i]
  {
    if |parts| == 1 {
      assert Join(parts, sep)[0..|parts[0]|] == parts[0];
    } else {
      var rest := Join(parts[1..], sep);
      JoinCons(parts, sep);
      if i == 0 {
        SliceBeforeSuffix(parts[0], sep + rest, 0, |parts[0]|);
        assert parts[0][0..|parts[0]|] == parts[0];
      } else {
        JoinPart(parts[1..], sep, i - 1);
        var o := Offset(parts[1..], sep, i - 1);
        assert parts[1..][i - 1] == parts[i];
        assert Offset(parts, sep, i) == |parts[0] + sep| + o;
        SliceAfterPrefix(parts[0] + sep, rest, o, o + |parts[i]|);
      }
    }
  }

  /** Every part but the last is followed by exactly one separator, where the next part begins. */
  lemma {:induction false} JoinSeparator(parts: seq<string>, sep: string, i: nat)
    requires i + 1 < |parts|
    ensures Offset(parts, sep, i + 1) == Offset(parts, sep, i) + |parts[i]| + |sep|
    ensures Offset(parts, sep, i) + |parts[i]| + |sep| <= |Join(parts, sep)|
    ensures Join(parts, sep)[Offset(parts, sep, i) + |parts[i]|..Offset(parts, sep, i) + |parts[i]| + |sep|] == sep
  {
    OffsetStep(parts, sep, i);
    var rest := Join(parts[1..], sep);
    JoinCons(parts, sep);
    if i == 0 {
      SliceAfterPrefix(parts[0], sep + rest, 0, |sep|);
      SliceBeforeSuffix(sep, rest, 0, |sep|);
      assert sep[0..|sep|] == sep;
    } else {
      JoinSeparator(parts[1..], sep, i - 1);
      var o := Offset(parts[1..], sep, i - 1);
      assert parts[1..][i - 1] == parts[i];
      assert Offset(parts, sep, i) == |parts[0] + sep| + o;
      SliceAfterPrefix(parts[0] + sep, rest, o + |parts[i]|, o + |parts[i]| + |sep|);
    }
  }

  /**
   * Python's `<` on `str`: lexicographic by code point, a proper prefix
   * before any of its extensions.
   */
  predicate Below(a: string, b: string)
  {
    if b == [] then false
    else if a == [] then true
    else if a[0] != b[0] then a[0] < b[0]
    else Below(a[1..], b[1..])
  }

  lemma {:induction false} BelowIrreflexive(a: string)
    ensures !Below(a, a)
  {
    if a != [] {
      BelowIrreflexive(a[1..]);
    }
  }

  lemma {:induction false} BelowTransitive(a: string, b: string, c: string)
    requires Below(a, b) && Below(b, c)
    ensures Below(a, c)
  {
    if a != [] && a[0] == b[0] && b[0] == c[0] {
      BelowTransitive(a[1..], b[1..], c[1..]);
    }
  }

  lemma BelowAsymmetric(a: string, b: string)
    requires Below(a, b)
    ensures !Below(b, a)
  {
    if Below(b, a) {
      BelowTransitive(a, b, a);
      BelowIrreflexive(a);
    }
  }

  /** Any two different strings are ordered one way or the other. */
  lemma {:induction false} BelowTotal(a: string, b: string)
    requires a != b
    ensures Below(a, b) || Below(b, a)
  {
    if a != [] && b != [] && a[0] == b[0] {
      assert a == [a[0]] + a[1..] && b == [b[0]] + b[1..];
      BelowTotal(a[1..], b[1..]);
    }
  }

  /** `s.endswith(suffix)`. */
  predicate EndsWith(s: string, suffix: string)
  {
    |suffix| <= |s| && s[|s| - |suffix|..] == suffix
  }
}
