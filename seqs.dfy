/**
 * Sequence operations shared by the client (`Array.prototype.filter`,
 * `reduce`) and by the store (`findMany` with `orderBy: { createdAt: 'desc' }`).
 */
module Seqs {

  /** `xs.filter(p)`. */
  function Filter<T>(p: T -> bool, xs: seq<T>): (r: seq<T>)
    ensures |r| <= |xs|
    ensures forall i | 0 <= i < |r| :: r[i] in xs && p(r[i])
    ensures forall i | 0 <= i < |xs| && p(xs[i]) :: xs[i] in r
  {
    if xs == [] then []
    else if p(xs[0]) then [xs[0]] + Filter(p, xs[1..])
    else Filter(p, xs[1..])
  }

  /** `sub` is obtained from `xs` by deleting elements, keeping the order of the rest. */
  predicate IsSublist<T(==)>(sub: seq<T>, xs: seq<T>)
    decreases |xs|
  {
    if sub == [] then true
    else if xs == [] then false
    else if sub[0] == xs[0] then IsSublist(sub[1..], xs[1..])
    else IsSublist(sub, xs[1..])
  }

  /** A sublist is never longer than the list, and one as long is the list itself. */
  lemma {:induction false} SublistLength<T>(sub: seq<T>, xs: seq<T>)
    requires IsSublist(sub, xs)
    ensures |sub| <= |xs|
    ensures |sub| == |xs| ==> sub == xs
    decreases |xs|
  {
    if sub != [] {
      if sub[0] == xs[0] {
        SublistLength(sub[1..], xs[1..]);
        if |sub| == |xs| {
          assert sub == [sub[0]] + sub[1..] && xs == [xs[0]] + xs[1..];
        }
      } else {
        SublistLength(sub, xs[1..]);
      }
    }
  }

  /** A filter keeps the surviving elements in their original order. */
  lemma {:induction false} FilterIsSublist<T>(p: T -> bool, xs: seq<T>)
    ensures IsSublist(Filter(p, xs), xs)
  {
    if xs != [] {
      FilterIsSublist(p, xs[1..]);
      if !p(xs[0]) {
        SublistSkip(Filter(p, xs[1..]), xs);
      }
    }
  }

  lemma {:induction false} SublistSkip<T>(sub: seq<T>, xs: seq<T>)
    requires xs != [] && IsSublist(sub, xs[1..])
    ensures IsSublist(sub, xs)
    decreases |xs|, 0
  {
    if sub != [] && sub[0] == xs[0] {
      // keep the head of `sub` matched against the first element of xs[1..] that it matched before
      SublistDropHead(sub, xs[1..]);
    }
  }

  lemma {:induction false} SublistDropHead<T>(sub: seq<T>, xs: seq<T>)
    requires sub != [] && IsSublist(sub, xs)
    ensures IsSublist(sub[1..], xs)
    decreases |xs|, 1
  {
    if sub[0] == xs[0] {
      if sub[1..] != [] {
        SublistSkip(sub[1..], xs);
      }
    } else {
      SublistDropHead(sub, xs[1..]);
      SublistSkip(sub[1..], xs);
    }
  }

  /** A filter whose predicate holds everywhere keeps the whole sequence. */
  lemma {:induction false} FilterAll<T>(p: T -> bool, xs: seq<T>)
    requires forall i | 0 <= i < |xs| :: p(xs[i])
    ensures Filter(p, xs) == xs
  {
    if xs != [] {
      FilterAll(p, xs[1..]);
    }
  }

  /** A weaker predicate keeps at least as much: the stricter filter's result
      is an ordered sublist of the looser one's. */
  lemma {:induction false} FilterMonotone<T>(p: T -> bool, q: T -> bool, xs: seq<T>)
    requires forall x :: p(x) ==> q(x)
    ensures IsSublist(Filter(p, xs), Filter(q, xs))
  {
    if xs != [] {
      var fp, fq := Filter(p, xs[1..]), Filter(q, xs[1..]);
      FilterMonotone(p, q, xs[1..]);
      if p(xs[0]) {
        assert ([xs[0]] + fp)[1..] == fp;
        assert ([xs[0]] + fq)[1..] == fq;
      } else if q(xs[0]) {
        assert ([xs[0]] + fq)[1..] == fq;
        SublistSkip(fp, [xs[0]] + fq);
      }
    }
  }

  /** Filtering distributes over concatenation. */
  lemma {:induction false} FilterAppend<T>(p: T -> bool, xs: seq<T>, ys: seq<T>)
    ensures Filter(p, xs + ys) == Filter(p, xs) + Filter(p, ys)
  {
    if xs != [] {
      assert (xs + ys)[1..] == xs[1..] + ys;
      FilterAppend(p, xs[1..], ys);
    } else {
      assert xs + ys == ys;
    }
  }

  /** The elements of `s` are ordered newest first by `key`. */
  predicate SortedDesc<T>(s: seq<T>, key: T -> int) {
    forall i, j | 0 <= i < j < |s| :: key(s[i]) >= key(s[j])
  }

  /** Inserts `x` in front of the first element that is strictly older. */
  function InsertDesc<T>(x: T, s: seq<T>, key: T -> int): (r: seq<T>)
    requires SortedDesc(s, key)
    ensures SortedDesc(r, key)
    ensures multiset(r) == multiset(s) + multiset{x}
    ensures |r| == |s| + 1 && (r[0] == x || (s != [] && r[0] == s[0]))
  {
    if s == [] || key(s[0]) <= key(x) then [x] + s
    else
      var tail := InsertDesc(x, s[1..], key);
      assert key(tail[0]) <= key(s[0]);
      assert s == [s[0]] + s[1..];
      [s[0]] + tail
  }

  /** A table read as `findMany({ where: keep, orderBy: { createdAt: 'desc' } })`:
      every matching row exactly once, newest first. Rows with equal timestamps
      come in an unspecified order, as in the database. */
  method OrderedRows<K, T(==)>(table: map<K, T>, keep: T -> bool, createdAt: T -> int) returns (r: seq<T>)
    ensures forall x :: multiset(r)[x] == if x in table.Values && keep(x) then 1 else 0
    ensures SortedDesc(r, createdAt)
  {
    r := [];
    var remaining := table.Values;
    while remaining != {}
      invariant remaining <= table.Values
      invariant SortedDesc(r, createdAt)
      invariant forall x :: multiset(r)[x] == if x in table.Values - remaining && keep(x) then 1 else 0
      decreases |remaining|
    {
      var x :| x in remaining;
      if keep(x) {
        r := InsertDesc(x, r, createdAt);
      }
      remaining := remaining - {x};
    }
  }

  /** `xs.reduce((sum, x) => sum + f(x), 0)`. */
  function SumOf<T>(f: T -> int, xs: seq<T>): int {
    if xs == [] then 0 else f(xs[0]) + SumOf(f, xs[1..])
  }

  /** The sum over a concatenation is the sum of the sums. */
  lemma {:induction false} SumOfAppend<T>(f: T -> int, xs: seq<T>, ys: seq<T>)
    ensures SumOf(f, xs + ys) == SumOf(f, xs) + SumOf(f, ys)
  {
    if xs == [] {
      assert xs + ys == ys;
    } else {
      assert (xs + ys)[1..] == xs[1..] + ys;
      SumOfAppend(f, xs[1..], ys);
    }
  }

  /** The complement of a predicate. */
  function Not<T>(p: T -> bool): T -> bool {
    x => !p(x)
  }

  /** What a filter keeps and what it drops add up to the whole sum. */
  lemma {:induction false} SumOfFilterSplit<T>(f: T -> int, p: T -> bool, xs: seq<T>)
    ensures SumOf(f, Filter(p, xs)) + SumOf(f, Filter(Not(p), xs)) == SumOf(f, xs)
  {
    if xs != [] {
      SumOfFilterSplit(f, p, xs[1..]);
    }
  }

  /** No element occurs twice. */
  predicate Distinct<T(==)>(xs: seq<T>) {
    forall i, j | 0 <= i < j < |xs| :: xs[i] != xs[j]
  }

  /** A sequence has as many different elements as positions exactly when no element repeats. */
  lemma {:induction false} CardinalityOfElements<T>(xs: seq<T>)
    ensures |set x | x in xs| <= |xs|
    ensures |set x | x in xs| == |xs| <==> Distinct(xs)
  {
    if xs != [] {
      var rest := set x | x in xs[1..];
      var all := set x | x in xs;
      CardinalityOfElements(xs[1..]);
      assert all == rest + {xs[0]};
      if xs[0] in xs[1..] {
        assert all == rest;
        var k :| 0 <= k < |xs[1..]| && xs[1..][k] == xs[0];
        assert xs[0] == xs[k + 1];
      } else {
        assert |all| == |rest| + 1;
        if Distinct(xs[1..]) {
          forall i, j | 0 <= i < j < |xs| ensures xs[i] != xs[j] {
            if i > 0 { assert xs[i] == xs[1..][i - 1] && xs[j] == xs[1..][j - 1]; }
            else { assert xs[j] in xs[1..]; }
          }
        } else {
          var i, j :| 0 <= i < j < |xs[1..]| && xs[1..][i] == xs[1..][j];
          assert xs[i + 1] == xs[j + 1];
        }
      }
    }
  }
}
