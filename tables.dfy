/** Generic queries over an in-memory table kept as a sequence of rows in storage order. */
module Tables {
  import opened Wrappers

  /** Index of the first row satisfying `p`: what `query.filter(p).first()` returns. */
  function FindFirst<T>(s: seq<T>, p: T -> bool): (r: Option<nat>)
    ensures r.Some? ==> r.value < |s| && p(s[r.value])
    ensures r.Some? ==> forall j :: 0 <= j < r.value ==> !p(s[j])
    ensures r.None? <==> forall j :: 0 <= j < |s| ==> !p(s[j])
  {
    if |s| == 0 then None
    else if p(s[0]) then Some(0)
    else match FindFirst(s[1..], p)
      case None => None
      case Some(k) => Some(k + 1)
  }

  /** All rows satisfying `p`, in storage order: `query.filter(p).all()`. */
  function Filter<T(!new)>(s: seq<T>, p: T -> bool): (r: seq<T>)
    ensures |r| <= |s|
    ensures forall x :: multiset(r)[x] == if p(x) then multiset(s)[x] else 0
    ensures forall x :: x in r <==> x in s && p(x)
  {
    if |s| == 0 then []
    else
      assert s == [s[0]] + s[1..];
      if p(s[0]) then [s[0]] + Filter(s[1..], p) else Filter(s[1..], p)
  }

  /** The table once row `i` is deleted. */
  function RemoveAt<T>(s: seq<T>, i: nat): (r: seq<T>)
    requires i < |s|
    ensures |r| == |s| - 1
    ensures multiset(r) == multiset(s) - multiset{s[i]}
    ensures forall j :: 0 <= j < i ==> r[j] == s[j]
    ensures forall j :: i <= j < |r| ==> r[j] == s[j + 1]
  {
    var before, after := s[..i], s[i + 1..];
    assert s == before + [s[i]] + after;
    assert multiset(s) == multiset(before) + multiset{s[i]} + multiset(after);
    assert multiset(before + after) == multiset(before) + multiset(after);
    before + after
  }

  /** At most `n` rows from the front: `query.range(..<n)`. */
  function Take<T>(s: seq<T>, n: nat): (r: seq<T>)
    ensures |r| == if |s| <= n then |s| else n
    ensures r == s[..|r|]
  {
    if |s| <= n then s else s[..n]
  }

  lemma {:induction false} FilterAppend<T(!new)>(s: seq<T>, t: seq<T>, p: T -> bool)
    ensures Filter(s + t, p) == Filter(s, p) + Filter(t, p)
  {
    if |s| == 0 {
      assert s + t == t;
    } else {
      assert (s + t)[1..] == s[1..] + t;
      FilterAppend(s[1..], t, p);
    }
  }

  /** A row appended to the table is appended to the filtered rows exactly when it satisfies `p`. */
  lemma FilterAppendOne<T(!new)>(s: seq<T>, x: T, p: T -> bool)
    ensures Filter(s + [x], p) == if p(x) then Filter(s, p) + [x] else Filter(s, p)
  {
    FilterAppend(s, [x], p);
    assert [x][0] == x && [x][1..] == [];
    assert Filter([x], p) == if p(x) then [x] else [];
  }

  /** A row appended to the table shows up at the end of the first `n` rows exactly when there is room. */
  lemma TakeAppendOne<T>(s: seq<T>, x: T, n: nat)
    ensures Take(s + [x], n) == if |s| < n then Take(s, n) + [x] else Take(s, n)
  {
    if |s| >= n {
      assert (s + [x])[..n] == s[..n];
    }
  }

  /** The results of `f` for each row, row after row: the flattening of a per-row query. */
  function Concat<A, B>(xs: seq<A>, f: A -> seq<B>): seq<B>
  {
    if xs == [] then [] else f(xs[0]) + Concat(xs[1..], f)
  }

  /** Flattening two runs of rows gives the first run's results before the second's. */
  lemma {:induction false} ConcatAppend<A, B>(xs: seq<A>, ys: seq<A>, f: A -> seq<B>)
    ensures Concat(xs + ys, f) == Concat(xs, f) + Concat(ys, f)
  {
    if xs == [] {
      assert xs + ys == ys;
    } else {
      assert (xs + ys)[0] == xs[0];
      assert (xs + ys)[1..] == xs[1..] + ys;
      ConcatAppend(xs[1..], ys, f);
    }
  }

  /** With at most `n` results per row, the flattening has at most `n` per row. */
  lemma {:induction false} ConcatBound<A, B>(xs: seq<A>, f: A -> seq<B>, n: nat)
    requires forall k :: 0 <= k < |xs| ==> |f(xs[k])| <= n
    ensures |Concat(xs, f)| <= n * |xs|
  {
    if xs != [] {
      var rest := xs[1..];
      assert forall k :: 0 <= k < |rest| ==> rest[k] == xs[k + 1];
      ConcatBound(rest, f, n);
      assert |Concat(xs, f)| == |f(xs[0])| + |Concat(rest, f)|;
      assert n * |xs| == n + n * |rest|;
    }
  }

  /** Every result of `f` for one of the rows is a result of the flattening. */
  lemma {:induction false} ConcatContains<A, B>(xs: seq<A>, f: A -> seq<B>)
    ensures forall x, b :: x in xs && b in f(x) ==> b in Concat(xs, f)
  {
    if xs != [] {
      ConcatContains(xs[1..], f);
      assert Concat(xs, f) == f(xs[0]) + Concat(xs[1..], f);
      forall x, b | x in xs && b in f(x)
        ensures b in Concat(xs, f)
      {
        if x != xs[0] {
          assert x in xs[1..];
        }
      }
    }
  }

  /** Every result of the flattening is a result of `f` for one of the rows. */
  lemma {:induction false} ConcatMembers<A, B>(xs: seq<A>, f: A -> seq<B>)
    ensures forall b :: b in Concat(xs, f) ==> exists x :: x in xs && b in f(x)
  {
    if xs != [] {
      ConcatMembers(xs[1..], f);
      forall b | b in Concat(xs, f)
        ensures exists x :: x in xs && b in f(x)
      {
        if b in f(xs[0]) {
          assert xs[0] in xs;
        } else {
          assert Concat(xs, f) == f(xs[0]) + Concat(xs[1..], f);
          assert b in Concat(xs[1..], f);
          var x :| x in xs[1..] && b in f(x);
          assert x in xs;
        }
      }
    }
  }

  /**
   * `save(on:)` of a row that has an identifier: every row with the same `key` is overwritten
   * by `x`, and every other row stays where it was.
   */
  function Overwrite<T, K(==)>(s: seq<T>, x: T, key: T -> K): (r: seq<T>)
    ensures |r| == |s|
    ensures forall k :: 0 <= k < |s| ==> r[k] == if key(s[k]) == key(x) then x else s[k]
  {
    seq(|s|, k requires 0 <= k < |s| => if key(s[k]) == key(x) then x else s[k])
  }

  /** Rows appended after the first match do not change which row a lookup finds. */
  lemma {:induction false} FindFirstAppend<T>(s: seq<T>, t: seq<T>, p: T -> bool)
    ensures FindFirst(s + t, p) ==
              if FindFirst(s, p).Some? then FindFirst(s, p)
              else if FindFirst(t, p).Some? then Some(|s| + FindFirst(t, p).value)
              else None
  {
    if |s| == 0 {
      assert s + t == t;
    } else {
      assert (s + t)[1..] == s[1..] + t;
      FindFirstAppend(s[1..], t, p);
    }
  }

  /** Updating a row in a way the predicate cannot see does not change which row a lookup finds. */
  lemma FindFirstUpdate<T>(s: seq<T>, i: nat, x: T, p: T -> bool)
    requires i < |s| && p(x) == p(s[i])
    ensures FindFirst(s[i := x], p) == FindFirst(s, p)
  {
    assert forall j :: 0 <= j < |s| ==> p(s[i := x][j]) == p(s[j]);
  }
}
