/**
  The pieces of Go's standard library that the commands use on strings:
  `strings.TrimPrefix`, the first field of `strings.Split`, the ordering of
  Go strings and `sort.Strings`.
 */
module GoStrings {

  /** `strings.TrimPrefix(s, prefix)`: `s` without ONE leading copy of
      `prefix`, or `s` itself when it does not start with `prefix`. */
  function TrimPrefix(s: string, prefix: string): (r: string)
    ensures prefix <= s ==> prefix + r == s
    ensures !(prefix <= s) ==> r == s
  {
    if prefix <= s then s[|prefix|..] else s
  }

  /** `strings.Split(s, [sep])[0]`: the text before the first `sep`, or all
      of `s` when `sep` does not occur. (Split always returns at least one
      element, so indexing it with 0 never fails.) */
  function FirstField(s: string, sep: char): (r: string)
    ensures r <= s
    ensures sep !in r
    ensures |r| < |s| ==> s[|r|] == sep
  {
    if s == [] || s[0] == sep then [] else [s[0]] + FirstField(s[1..], sep)
  }

  /** The first field is everything before the first separator. */
  lemma {:induction false} FirstFieldBefore(field: string, sep: char, tail: string)
    requires sep !in field
    ensures FirstField(field + tail, sep) == field <==> tail == [] || tail[0] == sep
  {
    if field != [] {
      assert (field + tail)[1..] == field[1..] + tail;
      FirstFieldBefore(field[1..], sep, tail);
    }
  }

  /** Go's `a <= b` on strings. Go compares the UTF-8 bytes; for well-formed
      text that is the same order as comparing code points, which is what
      `char` comparison does. */
  predicate LessEq(a: string, b: string)
  {
    a == [] || (b != [] && (a[0] < b[0] || (a[0] == b[0] && LessEq(a[1..], b[1..]))))
  }

  /** The order is lexicographic: `a` comes first when it is a prefix of `b`,
      or when at the first position where they differ `a` has the smaller
      character. */
  lemma {:induction false} LessEqLexicographic(a: string, b: string)
    ensures LessEq(a, b) <==>
              (a <= b || exists k :: 0 <= k < |a| && k < |b| && a[..k] == b[..k] && a[k] < b[k])
  {
    if a != [] && b != [] {
      LessEqLexicographic(a[1..], b[1..]);
      if LessEq(a, b) && a[0] == b[0] && !(a[1..] <= b[1..]) {
        var k :| 0 <= k < |a[1..]| && k < |b[1..]| && a[1..][..k] == b[1..][..k] && a[1..][k] < b[1..][k];
        assert a[..k + 1] == [a[0]] + a[1..][..k] && b[..k + 1] == [b[0]] + b[1..][..k];
        assert a[k + 1] < b[k + 1];
      }
      if a <= b {
        assert a[1..] <= b[1..];
      }
      if exists k :: 0 <= k < |a| && k < |b| && a[..k] == b[..k] && a[k] < b[k] {
        var k :| 0 <= k < |a| && k < |b| && a[..k] == b[..k] && a[k] < b[k];
        if k > 0 {
          assert a[0] == a[..k][0] == b[..k][0] == b[0];
          assert a[1..][..k - 1] == a[..k][1..] == b[..k][1..] == b[1..][..k - 1];
          assert a[1..][k - 1] < b[1..][k - 1];
        }
      }
    }
  }

  lemma {:induction false} LessEqReflexive(a: string)
    ensures LessEq(a, a)
  {
    if a != [] {
      LessEqReflexive(a[1..]);
    }
  }

  lemma {:induction false} LessEqTotal(a: string, b: string)
    ensures LessEq(a, b) || LessEq(b, a)
  {
    if a != [] && b != [] && a[0] == b[0] {
      LessEqTotal(a[1..], b[1..]);
    }
  }

  lemma {:induction false} LessEqAntisymmetric(a: string, b: string)
    requires LessEq(a, b) && LessEq(b, a)
    ensures a == b
  {
    if a != [] && b != [] {
      LessEqAntisymmetric(a[1..], b[1..]);
      assert a == [a[0]] + a[1..] && b == [b[0]] + b[1..];
    }
  }

  lemma {:induction false} LessEqTransitive(a: string, b: string, c: string)
    requires LessEq(a, b) && LessEq(b, c)
    ensures LessEq(a, c)
  {
    if a != [] && b != [] && c != [] && a[0] == b[0] == c[0] {
      LessEqTransitive(a[1..], b[1..], c[1..]);
    }
  }

  /** Ascending order, as `sort.Strings` leaves a slice. */
  ghost predicate Sorted(s: seq<string>)
  {
    forall i, j :: 0 <= i < j < |s| ==> LessEq(s[i], s[j])
  }

  /** Sorting is deterministic: two ascending sequences holding the same
      strings (with the same multiplicities) are equal. */
  lemma {:induction false} SortedUnique(s: seq<string>, t: seq<string>)
    requires Sorted(s) && Sorted(t)
    requires multiset(s) == multiset(t)
    ensures s == t
  {
    if s != [] {
      SortedHeads(s, t);
      DropHead(s);
      DropHead(t);
      SortedUnique(s[1..], t[1..]);
    } else {
      assert |t| == |multiset(t)| == 0;
    }
  }

  /** Two ascending sequences with the same elements start alike. */
  lemma SortedHeads(s: seq<string>, t: seq<string>)
    requires Sorted(s) && Sorted(t) && s != []
    requires multiset(s) == multiset(t)
    ensures t != [] && s[0] == t[0]
  {
    assert s[0] in multiset(t);
    assert t != [] && t[0] in multiset(s);
    var i :| 0 <= i < |t| && t[i] == s[0];
    var k :| 0 <= k < |s| && s[k] == t[0];
    if i == 0 {
      LessEqReflexive(t[0]);
    }
    if k == 0 {
      LessEqReflexive(s[0]);
    }
    LessEqAntisymmetric(s[0], t[0]);
  }

  /** Dropping the first element keeps the order and removes one copy. */
  lemma DropHead(s: seq<string>)
    requires Sorted(s) && s != []
    ensures Sorted(s[1..])
    ensures multiset(s[1..]) == multiset(s) - multiset{s[0]}
  {
    assert s == [s[0]] + s[1..];
  }

  /** `sort.Strings`: sorts the slice in place into ascending order. Go's
      implementation is not part of this model; insertion sort gives the
      same result, since the sorted arrangement is unique (SortedUnique). */
  method SortStrings(a: array<string>)
    modifies a
    ensures Sorted(a[..])
    ensures multiset(a[..]) == old(multiset(a[..]))
  {
    var i := 0;
    while i < a.Length
      invariant 0 <= i <= a.Length
      invariant Sorted(a[..i])
      invariant multiset(a[..]) == old(multiset(a[..]))
    {
      SinkLast(a, i);
      i := i + 1;
    }
  }

  /** One insertion-sort pass: moves `a[i]` down into the sorted `a[..i]`. */
  method SinkLast(a: array<string>, i: nat)
    requires i < a.Length && Sorted(a[..i])
    modifies a
    ensures Sorted(a[..i + 1])
    ensures multiset(a[..]) == old(multiset(a[..]))
  {
    var j := i;
    while j > 0 && !LessEq(a[j - 1], a[j])
      invariant 0 <= j <= i
      invariant forall p, q :: 0 <= p < q < j ==> LessEq(a[p], a[q])
      invariant forall p, q :: j <= p < q <= i ==> LessEq(a[p], a[q])
      invariant forall p, q :: 0 <= p < j < q <= i ==> LessEq(a[p], a[q])
      invariant multiset(a[..]) == old(multiset(a[..]))
    {
      LessEqTotal(a[j - 1], a[j]);
      Swap(a, j - 1, j);
      j := j - 1;
    }
    forall p, q | 0 <= p < q <= i
      ensures LessEq(a[p], a[q])
    {
      if p < j - 1 && q == j {
        LessEqTransitive(a[p], a[j - 1], a[j]);
      }
    }
  }

  method Swap(a: array<string>, i: nat, j: nat)
    requires i < j < a.Length
    modifies a
    ensures a[i] == old(a[j]) && a[j] == old(a[i])
    ensures forall k :: 0 <= k < a.Length && k != i && k != j ==> a[k] == old(a[k])
    ensures multiset(a[..]) == old(multiset(a[..]))
  {
    a[i], a[j] := a[j], a[i];
  }
}
