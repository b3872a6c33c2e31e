/** Small sequence and string utilities: prefixes, substring occurrence and
    the first position of an element. */
module Text {
  import opened Errors

  predicate StartsWith(s: string, prefix: string) {
    |prefix| <= |s| && s[..|prefix|] == prefix
  }

  predicate OccursAt(s: string, t: string, i: int) {
    0 <= i && i + |t| <= |s| && s[i..i + |t|] == t
  }

  /** `s.contains(t)` */
  predicate Contains(s: string, t: string) {
    exists i | 0 <= i <= |s| :: OccursAt(s, t, i)
  }

  /** The first index at which `c` occurs in `s`: Swift's
      `firstIndex(where: { $0 === c })`. On `object`, Dafny's `==` is
      reference identity, Swift's `===`. */
  function IndexOf<T(==)>(s: seq<T>, c: T): (r: Option<nat>)
    ensures r.Some? ==> r.value < |s| && s[r.value] == c && c !in s[..r.value]
    ensures r.None? ==> c !in s
  {
    if s == [] then None
    else if s[0] == c then Some(0)
    else match IndexOf(s[1..], c)
      case None => None
      case Some(i) =>
        assert s[..i + 1] == [s[0]] + s[1..][..i];
        Some(i + 1)
  }

  /** A character that does not occur in `a` is first found where `b` starts with it. */
  lemma IndexOfAfter<T>(a: seq<T>, b: seq<T>, c: T)
    requires c !in a && |b| > 0 && b[0] == c
    ensures IndexOf(a + b, c) == Some(|a|)
  {
    var s := a + b;
    assert s[|a|] == c;
  }

  /** Searching past a prefix that lacks `c` finds what searching the rest finds, shifted. */
  lemma {:induction false} IndexOfShift<T>(a: seq<T>, b: seq<T>, c: T)
    requires c !in a
    ensures IndexOf(a + b, c) == match IndexOf(b, c) case None => None case Some(i) => Some(|a| + i)
    decreases |a|
  {
    if a != [] {
      assert (a + b)[0] == a[0];
      assert (a + b)[1..] == a[1..] + b;
      IndexOfShift(a[1..], b, c);
    } else {
      assert a + b == b;
    }
  }
}
