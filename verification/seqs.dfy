/** Filtering and folding over sequences: how every `select ... where` is read. */
module Seqs {

  /** The elements of `s` that satisfy `p`, in order: the rows a query selects. */
  function Keep<T(!new)>(s: seq<T>, p: T -> bool): (r: seq<T>)
    ensures |r| <= |s|
    ensures forall x :: x in r <==> x in s && p(x)
  {
    if s == [] then [] else (if p(s[0]) then [s[0]] else []) + Keep(s[1..], p)
  }

  /** Filtering is a homomorphism for concatenation: appended rows are selected on their own. */
  lemma {:induction false} KeepAppend<T(!new)>(s: seq<T>, t: seq<T>, p: T -> bool)
    ensures Keep(s + t, p) == Keep(s, p) + Keep(t, p)
  {
    if s == [] {
      assert s + t == t;
    } else {
      assert (s + t)[1..] == s[1..] + t;
      KeepAppend(s[1..], t, p);
    }
  }

  lemma {:induction false} KeepCongruent<T(!new)>(s: seq<T>, p: T -> bool, q: T -> bool)
    requires forall x :: x in s ==> p(x) == q(x)
    ensures Keep(s, p) == Keep(s, q)
  {
    if s != [] {
      KeepCongruent(s[1..], p, q);
    }
  }

  lemma KeepLast<T(!new)>(s: seq<T>, p: T -> bool)
    requires s != [] && p(s[|s| - 1])
    ensures Keep(s, p) != [] && Keep(s, p)[|Keep(s, p)| - 1] == s[|s| - 1]
  {
    var last := [s[|s| - 1]];
    KeepAppend(s[..|s| - 1], last, p);
    assert s == s[..|s| - 1] + last && Keep(last, p) == last;
  }

  /** The last row a query selects is the last one that satisfies it. */
  lemma {:induction false} KeptLast<T(!new)>(s: seq<T>, p: T -> bool) returns (i: nat)
    requires Keep(s, p) != []
    ensures i < |s| && s[i] == Keep(s, p)[|Keep(s, p)| - 1] && forall j :: i < j < |s| ==> !p(s[j])
  {
    var n := |s| - 1;
    if p(s[n]) {
      KeepLast(s, p);
      i := n;
    } else {
      assert s == s[..n] + [s[n]];
      KeepAppend(s[..n], [s[n]], p);
      i := KeptLast(s[..n], p);
    }
  }

  /** A query selects every row as often as the table holds it. */
  lemma {:induction false} KeptCopies<T(!new)>(s: seq<T>, p: T -> bool, x: T)
    ensures multiset(Keep(s, p))[x] == if p(x) then multiset(s)[x] else 0
  {
    if s != [] {
      KeptCopies(s[1..], p, x);
      assert s == [s[0]] + s[1..];
    }
  }

  /** How many of the first `n` rows satisfy `p`. */
  ghost function Before<T(!new)>(s: seq<T>, p: T -> bool, n: nat): nat
    requires n <= |s|
  {
    |set i | 0 <= i < n && p(s[i])|
  }

  lemma BeforeNext<T(!new)>(s: seq<T>, p: T -> bool, n: nat)
    requires n < |s|
    ensures Before(s, p, n + 1) == Before(s, p, n) + if p(s[n]) then 1 else 0
  {
    var early, all := set i | 0 <= i < n && p(s[i]), set i | 0 <= i < n + 1 && p(s[i]);
    assert all == if p(s[n]) then early + {n} else early;
  }

  /** A query keeps the order: every selected row stands where as many come before it as are selected before it. */
  lemma KeptInPlace<T(!new)>(s: seq<T>, p: T -> bool)
    ensures |Keep(s, p)| == Before(s, p, |s|)
    ensures forall i :: 0 <= i < |s| && p(s[i]) ==>
              Before(s, p, i) < |Keep(s, p)| && Keep(s, p)[Before(s, p, i)] == s[i]
  {
    hide Before;
    assert s[..|s|] == s;
    KeptCount(s, p, |s|);
    forall i | 0 <= i < |s| && p(s[i])
      ensures Before(s, p, i) < |Keep(s, p)| && Keep(s, p)[Before(s, p, i)] == s[i]
    {
      KeptCount(s, p, i);
      assert s == s[..i] + s[i..];
      KeepAppend(s[..i], s[i..], p);
      assert Keep(s[i..], p)[0] == s[i];
    }
  }

  lemma {:induction false} KeptCount<T(!new)>(s: seq<T>, p: T -> bool, n: nat)
    requires n <= |s|
    ensures |Keep(s[..n], p)| == Before(s, p, n)
  {
    hide Before;
    if n == 0 {
      assert s[..0] == [] && Before(s, p, 0) == 0 by { NoneBefore(s, p); }
    } else {
      KeptCount(s, p, n - 1);
      BeforeNext(s, p, n - 1);
      assert s[..n] == s[..n - 1] + [s[n - 1]];
      KeepAppend(s[..n - 1], [s[n - 1]], p);
      KeepCons(s[n - 1], [], p);
      assert [s[n - 1]] + [] == [s[n - 1]];
    }
  }

  lemma NoneBefore<T(!new)>(s: seq<T>, p: T -> bool)
    ensures Before(s, p, 0) == 0
  {
  }

  /** Every selected row comes from a row of the table, and the rows selected before it come before that. */
  lemma {:induction false} KeptFrom<T(!new)>(s: seq<T>, p: T -> bool, k: nat, n: nat) returns (i: nat)
    requires n <= |s| && k < Before(s, p, n)
    ensures i < n && p(s[i]) && Before(s, p, i) == k
    ensures forall j :: 0 <= j < i && p(s[j]) ==> Before(s, p, j) < k
  {
    hide Before;
    if n == 0 {
      NoneBefore(s, p);
      assert false;
    } else {
      BeforeNext(s, p, n - 1);
      if k < Before(s, p, n - 1) {
        i := KeptFrom(s, p, k, n - 1);
      } else {
        i := n - 1;
        forall j | 0 <= j < i && p(s[j]) ensures Before(s, p, j) < k {
          BeforeNext(s, p, j);
          BeforeGrows(s, p, j + 1, i);
        }
      }
    }
  }

  lemma {:induction false} BeforeGrows<T(!new)>(s: seq<T>, p: T -> bool, j: nat, i: nat)
    requires j <= i <= |s|
    ensures Before(s, p, j) <= Before(s, p, i)
  {
    hide Before;
    if j < i {
      BeforeNext(s, p, i - 1);
      BeforeGrows(s, p, j, i - 1);
    }
  }

  /** A narrower query over an already filtered table sees what it would see in the whole table. */
  lemma {:induction false} KeepNarrower<T(!new)>(s: seq<T>, wide: T -> bool, narrow: T -> bool)
    requires forall x :: x in s && narrow(x) ==> wide(x)
    ensures Keep(Keep(s, wide), narrow) == Keep(s, narrow)
  {
    if s != [] {
      KeepNarrower(s[1..], wide, narrow);
      if wide(s[0]) {
        assert ([s[0]] + Keep(s[1..], wide))[1..] == Keep(s[1..], wide);
      } else {
        assert Keep(s, wide) == Keep(s[1..], wide);
      }
    }
  }

  lemma {:induction false} KeepNone<T(!new)>(s: seq<T>, p: T -> bool)
    requires forall x :: x in s ==> !p(x)
    ensures Keep(s, p) == []
  {
    if s != [] {
      KeepNone(s[1..], p);
    }
  }

  /** Every row rewritten by `f`: an update statement. */
  function Mapped<T>(s: seq<T>, f: T -> T): (r: seq<T>)
    ensures |r| == |s|
    ensures forall i :: 0 <= i < |s| ==> r[i] == f(s[i])
  {
    seq(|s|, i requires 0 <= i < |s| => f(s[i]))
  }

  lemma MappedCons<T>(s: seq<T>, f: T -> T)
    requires s != []
    ensures Mapped(s, f) == [f(s[0])] + Mapped(s[1..], f)
  {
  }

  lemma KeepCons<T(!new)>(x: T, rest: seq<T>, p: T -> bool)
    ensures Keep([x] + rest, p) == (if p(x) then [x] else []) + Keep(rest, p)
  {
    assert ([x] + rest)[1..] == rest;
  }

  /** A row is rewritten in place; `p` looks only at what the rewrite keeps. */
  lemma {:induction false} KeepRewritten<T(!new)>(s: seq<T>, f: T -> T, p: T -> bool)
    requires forall x :: x in s ==> p(f(x)) == p(x)
    ensures Keep(Mapped(s, f), p) == Mapped(Keep(s, p), f)
  {
    if s == [] {
    } else {
      KeepRewritten(s[1..], f, p);
      RewrittenCons(s[0], s[1..], f, p);
      assert s == [s[0]] + s[1..];
    }
  }

  lemma RewrittenCons<T(!new)>(x: T, rest: seq<T>, f: T -> T, p: T -> bool)
    requires p(f(x)) == p(x) && Keep(Mapped(rest, f), p) == Mapped(Keep(rest, p), f)
    ensures Keep(Mapped([x] + rest, f), p) == Mapped(Keep([x] + rest, p), f)
  {
    hide Keep, Mapped;
    MappedCons([x] + rest, f);
    assert ([x] + rest)[1..] == rest;
    KeepCons(f(x), Mapped(rest, f), p);
    KeepCons(x, rest, p);
    if p(x) {
      MappedCons([x] + Keep(rest, p), f);
      assert ([x] + Keep(rest, p))[1..] == Keep(rest, p);
    } else {
      assert [] + Keep(rest, p) == Keep(rest, p) && [] + Keep(Mapped(rest, f), p) == Keep(Mapped(rest, f), p);
    }
  }

  lemma MappedSame<T(!new)>(s: seq<T>, f: T -> T, g: T -> T)
    requires forall x :: x in s ==> f(x) == g(x)
    ensures Mapped(s, f) == Mapped(s, g)
  {
    assert forall i :: 0 <= i < |s| ==> s[i] in s;
  }

  ghost predicate Distinct<T(!new)>(s: seq<T>) {
    forall i, j :: 0 <= i < j < |s| ==> s[i] != s[j]
  }

  /** Dropping the first selected row of a table without duplicates is filtering it out. */
  lemma {:induction false} KeepWithoutFirst<T(!new)>(s: seq<T>, p: T -> bool, q: T -> bool)
    requires Distinct(s) && Keep(s, p) != []
    requires var first := Keep(s, p)[0];
             forall x :: x in s ==> q(x) == (p(x) && x != first)
    ensures Keep(s, q) == Keep(s, p)[1..]
  {
    if p(s[0]) {
      assert Keep(s, p) == [s[0]] + Keep(s[1..], p);
      forall x | x in s[1..] ensures q(x) == p(x) {
        var i :| 1 <= i < |s| && s[i] == x;
        assert s[0] != s[i];
      }
      KeepCongruent(s[1..], q, p);
      assert Keep(s, q) == Keep(s[1..], q);
    } else {
      assert Keep(s, p) == Keep(s[1..], p);
      KeepWithoutFirst(s[1..], p, q);
    }
  }

  lemma {:induction false} KeepDistinct<T(!new)>(s: seq<T>, p: T -> bool)
    requires Distinct(s)
    ensures Distinct(Keep(s, p))
  {
    if s != [] {
      KeepDistinct(s[1..], p);
      assert s[0] !in s[1..];
    }
  }
}
