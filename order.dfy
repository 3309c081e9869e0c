/** Python's ordering of `str` values (lexicographic on code points) and the
    ascending listing `sorted(...)` gives for a collection of distinct names. */
module Order {

  /** `a <= b` for Python strings. */
  predicate LexLe(a: string, b: string)
    decreases |a|
  {
    |a| == 0 || (|b| > 0 && (a[0] < b[0] || (a[0] == b[0] && LexLe(a[1..], b[1..]))))
  }

  lemma {:induction false} LexLeReflexive(a: string)
    ensures LexLe(a, a)
    decreases |a|
  {
    if |a| > 0 { LexLeReflexive(a[1..]); }
  }

  lemma {:induction false} LexLeTotal(a: string, b: string)
    ensures LexLe(a, b) || LexLe(b, a)
    decreases |a|
  {
    if |a| > 0 && |b| > 0 && a[0] == b[0] { LexLeTotal(a[1..], b[1..]); }
  }

  lemma {:induction false} LexLeAntisymmetric(a: string, b: string)
    requires LexLe(a, b) && LexLe(b, a)
    ensures a == b
    decreases |a|
  {
    if |a| > 0 {
      LexLeAntisymmetric(a[1..], b[1..]);
      assert a == [a[0]] + a[1..] && b == [b[0]] + b[1..];
    }
  }

  lemma {:induction false} LexLeTransitive(a: string, b: string, c: string)
    requires LexLe(a, b) && LexLe(b, c)
    ensures LexLe(a, c)
    decreases |a|
  {
    if |a| > 0 && a[0] == b[0] && b[0] == c[0] {
      LexLeTransitive(a[1..], b[1..], c[1..]);
    }
  }

  /** Ascending, without repetitions. */
  predicate StrictlySorted(xs: seq<string>)
  {
    forall i, j :: 0 <= i < j < |xs| ==> LexLe(xs[i], xs[j]) && xs[i] != xs[j]
  }

  /** Each name below the next one. */
  predicate Chained(xs: seq<string>)
  {
    forall i :: 0 <= i < |xs| - 1 ==> LexLe(xs[i], xs[i + 1]) && xs[i] != xs[i + 1]
  }

  lemma {:induction false} ChainedPair(xs: seq<string>, i: nat, j: nat)
    requires Chained(xs) && i < j < |xs|
    ensures LexLe(xs[i], xs[j]) && xs[i] != xs[j]
    decreases j - i
  {
    if j > i + 1 {
      ChainedPair(xs, i + 1, j);
      LexLeTransitive(xs[i], xs[i + 1], xs[j]);
      if xs[i] == xs[j] {
        LexLeAntisymmetric(xs[i], xs[i + 1]);
      }
    }
  }

  /** A listing is strictly ascending as soon as each name is below the next. */
  lemma ChainedIsSorted(xs: seq<string>)
    requires Chained(xs)
    ensures StrictlySorted(xs)
  {
    forall i, j | 0 <= i < j < |xs| ensures LexLe(xs[i], xs[j]) && xs[i] != xs[j] {
      ChainedPair(xs, i, j);
    }
  }

  /** The least element of a non-empty set of names. */
  ghost function Least(s: set<string>): (m: string)
    requires s != {}
    ensures m in s
    ensures forall y :: y in s ==> LexLe(m, y)
    decreases s
  {
    var x :| x in s;
    if s == {x} then
      LexLeReflexive(x);
      x
    else
      var m' := Least(s - {x});
      LexLeTotal(x, m');
      if LexLe(x, m') then
        LexLeReflexive(x);
        assert forall y :: y in s - {x} ==> LexLe(x, y) by {
          forall y | y in s - {x} ensures LexLe(x, y) { LexLeTransitive(x, m', y); }
        }
        x
      else
        m'
  }

  /** `sorted(s)` for a set of names: every name exactly once, in ascending order. */
  ghost function SortedList(s: set<string>): (r: seq<string>)
    ensures |r| == |s|
    ensures forall x :: x in r <==> x in s
    ensures StrictlySorted(r)
    decreases s
  {
    if s == {} then []
    else
      var m := Least(s);
      var rest := SortedList(s - {m});
      PrependLeast(s, m, rest);
      [m] + rest
  }

  /** Putting the least name in front of an ascending listing of the others
      lists the whole set in ascending order. */
  lemma PrependLeast(s: set<string>, m: string, rest: seq<string>)
    requires m in s && forall y :: y in s ==> LexLe(m, y)
    requires |rest| == |s - {m}| && (forall x :: x in rest <==> x in s - {m})
    requires StrictlySorted(rest)
    ensures |[m] + rest| == |s|
    ensures forall x :: x in [m] + rest <==> x in s
    ensures StrictlySorted([m] + rest)
  {
    forall j | 0 <= j < |rest| ensures LexLe(m, rest[j]) && m != rest[j] {
      assert rest[j] in s - {m};
    }
    PrependBelow(m, rest);
  }

  /** A name below every entry of an ascending listing can go in front of it. */
  lemma PrependBelow(m: string, rest: seq<string>)
    requires StrictlySorted(rest)
    requires forall j :: 0 <= j < |rest| ==> LexLe(m, rest[j]) && m != rest[j]
    ensures StrictlySorted([m] + rest)
  {
    var r := [m] + rest;
    forall i, j | 0 <= i < j < |r| ensures LexLe(r[i], r[j]) && r[i] != r[j] {
      assert r[j] == rest[j - 1];
      if i > 0 {
        assert r[i] == rest[i - 1];
      }
    }
  }

  /** The last element of an ascending listing is the greatest name in it. */
  lemma {:induction false} LastIsGreatest(xs: seq<string>)
    requires StrictlySorted(xs) && xs != []
    ensures forall x :: x in xs ==> LexLe(x, xs[|xs| - 1])
  {
    forall x | x in xs ensures LexLe(x, xs[|xs| - 1]) {
      var i :| 0 <= i < |xs| && xs[i] == x;
      if i == |xs| - 1 { LexLeReflexive(x); }
    }
  }

  /** Two ascending listings of the same names are the same listing. */
  lemma {:induction false} SortedUnique(a: seq<string>, b: seq<string>)
    requires StrictlySorted(a) && StrictlySorted(b)
    requires forall x :: x in a <==> x in b
    ensures a == b
    decreases |a|
  {
    if a != [] { assert a[0] in b; }
    if b != [] { assert b[0] in a; }
    if a != [] && b != [] {
      var i :| 0 <= i < |b| && b[i] == a[0];
      var j :| 0 <= j < |a| && a[j] == b[0];
      if a[0] != b[0] {
        assert i > 0 && j > 0;
        LexLeAntisymmetric(a[0], b[0]);
      }
      forall x ensures x in a[1..] <==> x in b[1..] {
        assert x in a[1..] <==> x in a && x != a[0];
        assert x in b[1..] <==> x in b && x != b[0];
      }
      SortedUnique(a[1..], b[1..]);
      assert a == [a[0]] + a[1..] && b == [b[0]] + b[1..];
    }
  }
}
