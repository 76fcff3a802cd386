/** Shared vocabulary: optional values and the byte-wise order of tenant and target names. */
module Common {

  datatype Option<+T> = None | Some(value: T)

  datatype Result<+T, +E> = Ok(value: T) | Err(error: E)

  /** Generated identifiers: only their equality matters. */
  type Uuid = nat

  predicate NameLeq(a: string, b: string) {
    a == [] || (b != [] && (a[0] < b[0] || (a[0] == b[0] && NameLeq(a[1..], b[1..]))))
  }

  predicate NameLess(a: string, b: string) {
    a != b && NameLeq(a, b)
  }

  lemma {:induction false} NameTotal(a: string, b: string)
    ensures NameLeq(a, b) || NameLeq(b, a)
  {
    if a != [] && b != [] {
      NameTotal(a[1..], b[1..]);
    }
  }

  lemma {:induction false} NameAntisymmetric(a: string, b: string)
    requires NameLeq(a, b) && NameLeq(b, a)
    ensures a == b
  {
    if a != [] {
      NameAntisymmetric(a[1..], b[1..]);
      assert a == [a[0]] + a[1..] && b == [b[0]] + b[1..];
    }
  }

  lemma {:induction false} NameTransitive(a: string, b: string, c: string)
    requires NameLeq(a, b) && NameLeq(b, c)
    ensures NameLeq(a, c)
  {
    if a != [] {
      if a[0] == b[0] == c[0] {
        NameTransitive(a[1..], b[1..], c[1..]);
      }
    }
  }

  lemma {:induction false} NameReflexive(a: string)
    ensures NameLeq(a, a)
  {
    if a != [] {
      NameReflexive(a[1..]);
    }
  }

  /** The order is lexicographic: a prefix comes first, and otherwise the first difference decides. */
  lemma {:induction false} NamesCompare(p: string, c: char, d: char, x: string, y: string)
    requires c < d
    ensures NameLeq(p, p + x)
    ensures NameLeq(p + [c] + x, p + [d] + y) && !NameLeq(p + [d] + y, p + [c] + x)
  {
    if p != [] {
      NamesCompare(p[1..], c, d, x, y);
      assert (p + x)[1..] == p[1..] + x;
      assert (p + [c] + x)[1..] == p[1..] + [c] + x && (p + [d] + y)[1..] == p[1..] + [d] + y;
    }
  }

  predicate HasPrefix(s: string, prefix: string) {
    prefix <= s
  }

  predicate HasSuffix(s: string, suffix: string) {
    |suffix| <= |s| && s[|s| - |suffix|..] == suffix
  }
}
