/** Sequence operations the handlers use, with the facts the proofs need. */
module Seqs {

  /** Python's `needle in hay` on strings: `needle` occurs contiguously in `hay`. */
  predicate Contains(hay: string, needle: string)
    decreases |hay|
  {
    needle <= hay || (hay != [] && Contains(hay[1..], needle))
  }

  /** `Contains` holds exactly when `needle` starts at some position of `hay`. */
  lemma {:induction false} ContainsAt(hay: string, needle: string)
    ensures Contains(hay, needle) <==> exists i :: 0 <= i <= |hay| && needle <= hay[i..]
  {
    if Contains(hay, needle) {
      if needle <= hay {
        assert hay[0..] == hay;
      } else {
        ContainsAt(hay[1..], needle);
        var i :| 0 <= i <= |hay[1..]| && needle <= hay[1..][i..];
        assert hay[1..][i..] == hay[i + 1..];
      }
    }
    if exists i :: 0 <= i <= |hay| && needle <= hay[i..] {
      var i :| 0 <= i <= |hay| && needle <= hay[i..];
      if i == 0 {
        assert hay[0..] == hay;
      } else {
        assert hay[1..][i - 1..] == hay[i..];
        ContainsAt(hay[1..], needle);
      }
    }
  }

  /** A list comprehension with a condition: the elements satisfying `p`, in order. */
  function Filter<T(!new)>(s: seq<T>, p: T -> bool): (r: seq<T>)
    ensures |r| <= |s|
    ensures forall x :: x in r <==> x in s && p(x)
  {
    if s == [] then []
    else if p(s[0]) then [s[0]] + Filter(s[1..], p)
    else Filter(s[1..], p)
  }

  /** Filtering keeps the relative order of the elements it keeps. */
  lemma {:induction false} FilterKeepsOrder<T(!new)>(s: seq<T>, p: T -> bool, i: nat, j: nat)
    requires i < j < |s| && p(s[i]) && p(s[j])
    ensures var r := Filter(s, p);
      exists a, b :: 0 <= a < b < |r| && r[a] == s[i] && r[b] == s[j]
  {
    var r, r' := Filter(s, p), Filter(s[1..], p);
    if i == 0 {
      assert s[j] == s[1..][j - 1];
      assert s[j] in r';
      var b' :| 0 <= b' < |r'| && r'[b'] == s[j];
      assert r == [s[0]] + r';
      assert 0 < b' + 1 < |r| && r[0] == s[i] && r[b' + 1] == s[j];
      assert 0 < b' + 1 < |Filter(s, p)| && Filter(s, p)[0] == s[i] && Filter(s, p)[b' + 1] == s[j];
    } else {
      FilterKeepsOrder(s[1..], p, i - 1, j - 1);
      var a', b' :| 0 <= a' < b' < |r'| && r'[a'] == s[1..][i - 1] && r'[b'] == s[1..][j - 1];
      if p(s[0]) {
        assert r == [s[0]] + r';
        assert 0 <= a' + 1 < b' + 1 < |r| && r[a' + 1] == s[i] && r[b' + 1] == s[j];
        assert 0 <= a' + 1 < b' + 1 < |Filter(s, p)| && Filter(s, p)[a' + 1] == s[i] && Filter(s, p)[b' + 1] == s[j];
      } else {
        assert r == r';
        assert 0 <= a' < b' < |Filter(s, p)| && Filter(s, p)[a'] == s[i] && Filter(s, p)[b'] == s[j];
      }
    }
  }

  /** Python's `list.remove(x)`: drop the first element equal to `x`; `x` must be present. */
  function RemoveFirst<T(==)>(s: seq<T>, x: T): (r: seq<T>)
    requires x in s
    ensures |r| == |s| - 1
  {
    assert s == [s[0]] + s[1..];
    if s[0] == x then s[1..] else [s[0]] + RemoveFirst(s[1..], x)
  }

  /** Each element of `xs` can be removed in turn, as `list.remove` demands. */
  predicate Removable<T(==)>(s: seq<T>, xs: seq<T>)
    decreases |xs|
  {
    xs == [] || (xs[0] in s && Removable(RemoveFirst(s, xs[0]), xs[1..]))
  }

  /** `for x in xs: s.remove(x)` */
  function RemoveEach<T(==)>(s: seq<T>, xs: seq<T>): seq<T>
    requires Removable(s, xs)
    decreases |xs|
  {
    if xs == [] then s else RemoveEach(RemoveFirst(s, xs[0]), xs[1..])
  }

  /** When `x` does not occur before it, the first `x` is the one after `u`. */
  lemma {:induction false} RemoveFirstAfter<T>(u: seq<T>, x: T, rest: seq<T>)
    requires x !in u
    ensures x in u + [x] + rest
    ensures RemoveFirst(u + [x] + rest, x) == u + rest
  {
    var s := u + [x] + rest;
    assert s[|u|] == x;
    if u == [] {
      assert s == [x] + rest;
    } else {
      assert s[0] == u[0] != x;
      assert s[1..] == u[1..] + [x] + rest;
      RemoveFirstAfter(u[1..], x, rest);
      calc {
        RemoveFirst(s, x);
        [u[0]] + RemoveFirst(s[1..], x);
        [u[0]] + (u[1..] + rest);
        { assert u == [u[0]] + u[1..]; }
        u + rest;
      }
    }
  }

  /**
   * Removing, one at a time, the elements that satisfy `p` (in their order in `s`)
   * from `u + s`, where nothing in `u` satisfies `p`, leaves `u` followed by the
   * elements of `s` that satisfy `q`, the negation of `p`.
   */
  lemma {:induction false} RemovingMatchesLeavesRest<T(!new)>(u: seq<T>, s: seq<T>, p: T -> bool, q: T -> bool)
    requires forall x :: q(x) == !p(x)
    requires forall x :: x in u ==> !p(x)
    ensures Removable(u + s, Filter(s, p))
    ensures RemoveEach(u + s, Filter(s, p)) == u + Filter(s, q)
    decreases |s|
  {
    if s == [] {
      assert u + s == u;
    } else {
      var a, s' := s[0], s[1..];
      assert u + s == u + [a] + s';
      if p(a) {
        assert Filter(s, p) == [a] + Filter(s', p);
        RemoveFirstAfter(u, a, s');
        RemovingMatchesLeavesRest(u, s', p, q);
        assert Filter(s, q) == Filter(s', q);
      } else {
        assert Filter(s, p) == Filter(s', p);
        RemovingMatchesLeavesRest(u + [a], s', p, q);
        assert u + [a] + s' == (u + [a]) + s';
        assert Filter(s, q) == [a] + Filter(s', q);
      }
    }
  }
}
