/** Options and the few facts about sequences the rest of the project shares. */
module Prelude {

  datatype Option<+T> = None | Some(value: T)

  function Min(a: int, b: int): int { if a < b then a else b }

  function Max(a: int, b: int): int { if a < b then b else a }

  /** What `retain` leaves of a sequence. */
  function Filter<T(!new)>(keep: T -> bool, s: seq<T>): (r: seq<T>)
    ensures |r| <= |s|
    ensures forall x :: x in r <==> x in s && keep(x)
  {
    if s == [] then []
    else
      var rest := Filter(keep, s[..|s| - 1]);
      if keep(s[|s| - 1]) then rest + [s[|s| - 1]] else rest
  }

  /** A sequence with one position taken out. */
  function Without<T>(s: seq<T>, k: nat): (r: seq<T>)
    requires k < |s|
    ensures |r| == |s| - 1
    ensures forall i :: 0 <= i < k ==> r[i] == s[i]
    ensures forall i :: k <= i < |r| ==> r[i] == s[i + 1]
  {
    s[..k] + s[k + 1..]
  }

  lemma FilterAll<T(!new)>(keep: T -> bool, s: seq<T>)
    requires forall x :: x in s ==> keep(x)
    ensures Filter(keep, s) == s
  {
    if s != [] {
      FilterAll(keep, s[..|s| - 1]);
    }
  }

  /** Two filters that agree on the elements of a sequence keep the same ones. */
  lemma FilterAgree<T(!new)>(p: T -> bool, q: T -> bool, s: seq<T>)
    requires forall x :: x in s ==> p(x) == q(x)
    ensures Filter(p, s) == Filter(q, s)
  {
    if s != [] {
      FilterAgree(p, q, s[..|s| - 1]);
    }
  }

  lemma FilterStep<T(!new)>(keep: T -> bool, s: seq<T>, i: nat)
    requires i < |s|
    ensures Filter(keep, s[..i + 1]) == Filter(keep, s[..i]) + if keep(s[i]) then [s[i]] else []
  {
    assert s[..i + 1][..i] == s[..i];
  }

  lemma PrefixOfPrefix<T>(all: seq<T>, more: seq<T>, few: seq<T>, tail: seq<T>)
    requires |more| <= |all| && all[..|more|] == more && more == few + tail
    ensures |few| <= |all| && all[..|few|] == few
  {
    assert all[..|few|] == all[..|more|][..|few|];
  }

  /** What a prefix keeps is a prefix of what the whole keeps. */
  lemma {:induction false} FilterPrefix<T(!new)>(keep: T -> bool, s: seq<T>, i: nat)
    requires i <= |s|
    ensures |Filter(keep, s[..i])| <= |Filter(keep, s)|
    ensures Filter(keep, s)[..|Filter(keep, s[..i])|] == Filter(keep, s[..i])
    decreases |s| - i
  {
    if i < |s| {
      hide Filter;
      FilterPrefix(keep, s, i + 1);
      FilterStep(keep, s, i);
      var tail := if keep(s[i]) then [s[i]] else [];
      PrefixOfPrefix(Filter(keep, s), Filter(keep, s[..i + 1]), Filter(keep, s[..i]), tail);
    } else {
      assert s[..i] == s;
    }
  }

  ghost predicate Distinct<T(!new), K(!new)>(key: T -> K, s: seq<T>)
  {
    forall i, j :: 0 <= i < j < |s| ==> key(s[i]) != key(s[j])
  }

  /** Dropping elements cannot make two keys collide. */
  lemma {:induction false} FilterDistinct<T(!new), K(!new)>(key: T -> K, keep: T -> bool, s: seq<T>)
    requires Distinct(key, s)
    ensures Distinct(key, Filter(keep, s))
  {
    if s != [] {
      var init := s[..|s| - 1];
      var last := s[|s| - 1];
      FilterDistinct(key, keep, init);
      var rest := Filter(keep, init);
      forall i | 0 <= i < |rest| ensures key(rest[i]) != key(last) {
        assert rest[i] in init;
      }
    }
  }

  // ---- the lexicographic order of strings ----

  predicate Before(a: string, b: string) {
    if b == [] then false
    else if a == [] then true
    else a[0] < b[0] || (a[0] == b[0] && Before(a[1..], b[1..]))
  }

  lemma BeforeTotal(a: string, b: string)
    ensures Before(a, b) || Before(b, a) || a == b
  {
    if a != [] && b != [] && a[0] == b[0] {
      BeforeTotal(a[1..], b[1..]);
      assert a == [a[0]] + a[1..] && b == [b[0]] + b[1..];
    }
  }

  lemma BeforeAsymmetric(a: string, b: string)
    requires Before(a, b)
    ensures !Before(b, a) && a != b
  {
    if a != [] && a[0] == b[0] {
      BeforeAsymmetric(a[1..], b[1..]);
    }
  }

  lemma BeforeTransitive(a: string, b: string, c: string)
    requires Before(a, b) && Before(b, c)
    ensures Before(a, c)
  {
    if a != [] && b != [] && a[0] == b[0] == c[0] {
      BeforeTransitive(a[1..], b[1..], c[1..]);
    }
  }
}
