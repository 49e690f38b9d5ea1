/** Value types shared by every part of the model: options, ids, addresses and
    their lower-cased keys, sequences without repeats, and the one sorting rule. */
module Basics {

  datatype Option<+T> = None | Some(value: T)

  /** Row ids. The tables mint them from a counter, which stands for random UUIDs
      that never repeat. */
  type Uuid = nat

  type Email = string

  /** Each group's desired addresses, and the member each belongs to. */
  type Audiences = map<Email, map<string, Uuid>>

  // ---------------------------------------------------------------- strings

  function LowerChar(c: char): char {
    if 'A' <= c <= 'Z' then (c as int + 32) as char else c
  }

  function UpperChar(c: char): char {
    if 'a' <= c <= 'z' then (c as int - 32) as char else c
  }

  /** ASCII lower-casing: one function for both `lower()` and `casefold()`. */
  function Norm(s: string): (r: string)
    ensures |r| == |s|
    ensures forall i :: 0 <= i < |s| ==> r[i] == LowerChar(s[i])
  {
    seq(|s|, i requires 0 <= i < |s| => LowerChar(s[i]))
  }

  lemma NormIdempotent(s: string)
    ensures Norm(Norm(s)) == Norm(s)
  {
    assert forall c: char :: LowerChar(LowerChar(c)) == LowerChar(c);
  }

  predicate EndsWith(s: string, suffix: string) {
    |suffix| <= |s| && s[|s| - |suffix|..] == suffix
  }

  lemma EndsExactly(s: string, suffix: string)
    ensures EndsWith(s, suffix) <==> exists head :: s == head + suffix
  {
    if EndsWith(s, suffix) {
      assert s == s[..|s| - |suffix|] + suffix;
    }
  }

  // -------------------------------------------------------------- sequences

  ghost predicate NoDup<T(!new)>(s: seq<T>) {
    forall i, j :: 0 <= i < j < |s| ==> s[i] != s[j]
  }

  lemma NoDupAppend<T(!new)>(s: seq<T>, x: T)
    requires NoDup(s) && x !in s
    ensures NoDup(s + [x])
  {
  }

  function ToSet<T>(s: seq<T>): set<T> {
    set x | x in s
  }

  /** Distinct items drawn from a set are no more than the set holds. */
  lemma NoDupBound<T(!new)>(s: seq<T>, xs: set<T>)
    requires NoDup(s) && forall x :: x in s ==> x in xs
    ensures |s| <= |xs|
  {
    if s != [] {
      var last := s[|s| - 1];
      var rest := s[..|s| - 1];
      forall x | x in rest ensures x in xs - {last} {
        assert last in s;
      }
      NoDupBound(rest, xs - {last});
    }
  }

  lemma {:induction false} NoDupSize<T(!new)>(s: seq<T>)
    requires NoDup(s)
    ensures |ToSet(s)| == |s|
  {
    if s == [] {
      assert ToSet(s) == {};
    } else {
      var rest, last := s[..|s| - 1], s[|s| - 1];
      assert s == rest + [last];
      NoDupSize(rest);
      assert last !in ToSet(rest);
      assert ToSet(s) == ToSet(rest) + {last};
    }
  }

  lemma SubsetSize<T>(a: set<T>, b: set<T>)
    requires a <= b
    ensures |a| <= |b|
  {
    assert b == a + (b - a);
  }

  /** Splitting a finite set by a predicate, as a size. */
  lemma DisjointSizes<T>(a: set<T>, b: set<T>, c: set<T>)
    requires a !! b && a + b == c
    ensures |a| + |b| == |c|
  {
  }

  // ---------------------------------------------------------------- sorting

  ghost predicate TotalOn<T(!new)>(leq: (T, T) -> bool, xs: set<T>) {
    && (forall a, b :: a in xs && b in xs ==> leq(a, b) || leq(b, a))
    && (forall a, b :: a in xs && b in xs && leq(a, b) && leq(b, a) ==> a == b)
    && (forall a, b, c :: a in xs && b in xs && c in xs && leq(a, b) && leq(b, c) ==> leq(a, c))
  }

  ghost predicate IsLeast<T(!new)>(leq: (T, T) -> bool, xs: set<T>, x: T) {
    x in xs && forall y :: y in xs ==> leq(x, y)
  }

  lemma {:induction false} LeastExists<T(!new)>(leq: (T, T) -> bool, xs: set<T>)
    requires TotalOn(leq, xs) && xs != {}
    ensures exists x :: IsLeast(leq, xs, x)
  {
    var z :| z in xs;
    var rest := xs - {z};
    if rest == {} {
      assert xs == {z};
      assert IsLeast(leq, xs, z);
    } else {
      LeastExists(leq, rest);
      var x :| IsLeast(leq, rest, x);
      if leq(x, z) {
        assert IsLeast(leq, xs, x);
      } else {
        assert IsLeast(leq, xs, z);
      }
    }
  }

  /** The elements of a set in ascending order. */
  function Sorted<T(!new, ==)>(leq: (T, T) -> bool, xs: set<T>): (s: seq<T>)
    requires TotalOn(leq, xs)
    ensures ToSet(s) == xs && NoDup(s)
    ensures forall i, j :: 0 <= i < j < |s| ==> leq(s[i], s[j])
  {
    if xs == {} then []
    else
      LeastExists(leq, xs);
      assert exists x :: x in xs && forall y :: y in xs ==> leq(x, y) by {
        var z :| IsLeast(leq, xs, z);
      }
      var x :| x in xs && forall y :: y in xs ==> leq(x, y);
      var rest := Sorted(leq, xs - {x});
      assert forall y :: y in rest <==> y in ToSet(rest);
      assert ToSet([x] + rest) == {x} + ToSet(rest);
      [x] + rest
  }

  /** Python's order on strings. */
  predicate LexLeq(a: string, b: string) {
    a == [] || (b != [] && (a[0] < b[0] || (a[0] == b[0] && LexLeq(a[1..], b[1..]))))
  }

  lemma {:induction false} LexTotal(a: string, b: string)
    ensures LexLeq(a, b) || LexLeq(b, a)
  {
    if a != [] && b != [] && a[0] == b[0] { LexTotal(a[1..], b[1..]); }
  }

  lemma {:induction false} LexAntisymmetric(a: string, b: string)
    requires LexLeq(a, b) && LexLeq(b, a)
    ensures a == b
  {
    if a != [] {
      LexAntisymmetric(a[1..], b[1..]);
      assert a == [a[0]] + a[1..] && b == [b[0]] + b[1..];
    }
  }

  lemma {:induction false} LexTransitive(a: string, b: string, c: string)
    requires LexLeq(a, b) && LexLeq(b, c)
    ensures LexLeq(a, c)
  {
    if a != [] && a[0] == b[0] == c[0] { LexTransitive(a[1..], b[1..], c[1..]); }
  }

  lemma LexIsTotal(xs: set<string>)
    ensures TotalOn(LexLeq, xs)
  {
    forall a: string, b: string ensures LexLeq(a, b) || LexLeq(b, a) { LexTotal(a, b); }
    forall a, b | LexLeq(a, b) && LexLeq(b, a) ensures a == b { LexAntisymmetric(a, b); }
    forall a, b, c | LexLeq(a, b) && LexLeq(b, c) ensures LexLeq(a, c) { LexTransitive(a, b, c); }
  }

  /** `sorted(...)` over the keys of a dict of addresses. */
  function SortedKeys(xs: set<string>): (s: seq<string>)
    ensures ToSet(s) == xs && NoDup(s)
    ensures forall x :: x in s <==> x in xs
    ensures forall i, j :: 0 <= i < j < |s| ==> LexLeq(s[i], s[j])
  {
    LexIsTotal(xs);
    var s := Sorted(LexLeq, xs);
    assert forall x :: x in s <==> x in ToSet(s);
    s
  }

  // -------------------------------------------------------------- arithmetic

  /** `math.ceil(n * 0.10)`. */
  function TenthRoundedUp(n: nat): nat {
    (n + 9) / 10
  }

  function Max(a: int, b: int): int {
    if a >= b then a else b
  }
}
