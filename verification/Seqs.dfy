/** Sequence vocabulary shared by the models: filtering, prefix dropping and subsequences. */
module Seqs {

  datatype Option<+T> = None | Some(value: T)

  /** `dict.pop(key, None)`: the map without the key. */
  function Without<K, V>(m: map<K, V>, key: K): (r: map<K, V>)
    ensures r.Keys == m.Keys - {key}
    ensures forall k :: k in r ==> r[k] == m[k]
  {
    map k | k in m && k != key :: m[k]
  }

  /** The elements of `xs` that satisfy `keep`, in order. */
  function Filter<T>(xs: seq<T>, keep: T -> bool): (ys: seq<T>)
    ensures |ys| <= |xs|
  {
    if xs == [] then []
    else if keep(xs[0]) then [xs[0]] + Filter(xs[1..], keep)
    else Filter(xs[1..], keep)
  }

  /** How many leading elements of `xs` satisfy `gone`. */
  function Leading<T>(xs: seq<T>, gone: T -> bool): (n: nat)
    ensures n <= |xs|
    ensures forall i :: 0 <= i < n ==> gone(xs[i])
    ensures n < |xs| ==> !gone(xs[n])
  {
    if xs == [] || !gone(xs[0]) then 0 else 1 + Leading(xs[1..], gone)
  }

  /** `xs` can be obtained from `ys` by deleting elements. */
  ghost predicate Subsequence<T>(xs: seq<T>, ys: seq<T>)
  {
    if xs == [] then true
    else if ys == [] then false
    else (xs[0] == ys[0] && Subsequence(xs[1..], ys[1..])) || Subsequence(xs, ys[1..])
  }

  lemma {:induction false} FilterConcat<T>(xs: seq<T>, ys: seq<T>, keep: T -> bool)
    ensures Filter(xs + ys, keep) == Filter(xs, keep) + Filter(ys, keep)
  {
    if xs == [] {
      assert xs + ys == ys;
    } else {
      FilterConcat(xs[1..], ys, keep);
      assert (xs + ys)[1..] == xs[1..] + ys && (xs + ys)[0] == xs[0];
      if keep(xs[0]) {
        assert [xs[0]] + Filter(xs[1..], keep) + Filter(ys, keep)
            == [xs[0]] + (Filter(xs[1..], keep) + Filter(ys, keep));
      }
    }
  }

  lemma {:induction false} FilterMember<T>(xs: seq<T>, keep: T -> bool, x: T)
    ensures x in Filter(xs, keep) <==> x in xs && keep(x)
  {
    if xs != [] {
      FilterMember(xs[1..], keep, x);
      assert xs == [xs[0]] + xs[1..];
    }
  }

  lemma {:induction false} FilterAll<T>(xs: seq<T>, keep: T -> bool)
    requires forall x :: x in xs ==> keep(x)
    ensures Filter(xs, keep) == xs
  {
    if xs != [] {
      FilterAll(xs[1..], keep);
      assert xs == [xs[0]] + xs[1..];
    }
  }

  lemma {:induction false} FilterNone<T>(xs: seq<T>, keep: T -> bool)
    requires forall x :: x in xs ==> !keep(x)
    ensures Filter(xs, keep) == []
  {
    if xs != [] {
      FilterNone(xs[1..], keep);
    }
  }

  /** A filter and its complement share out the elements, counting repetitions. */
  lemma {:induction false} FilterSplit<T>(xs: seq<T>, p: T -> bool, q: T -> bool)
    requires forall x :: x in xs ==> p(x) == !q(x)
    ensures multiset(xs) == multiset(Filter(xs, p)) + multiset(Filter(xs, q))
  {
    if xs != [] {
      FilterSplit(xs[1..], p, q);
      assert xs == [xs[0]] + xs[1..];
    }
  }

  lemma {:induction false} SubsequenceRefl<T>(xs: seq<T>)
    ensures Subsequence(xs, xs)
  {
    if xs != [] { SubsequenceRefl(xs[1..]); }
  }

  lemma {:induction false} SubsequenceSkip<T>(xs: seq<T>, ys: seq<T>)
    requires ys != [] && Subsequence(xs, ys[1..])
    ensures Subsequence(xs, ys)
  {
  }

  lemma {:induction false} SubsequenceTrans<T>(xs: seq<T>, ys: seq<T>, zs: seq<T>)
    requires Subsequence(xs, ys) && Subsequence(ys, zs)
    ensures Subsequence(xs, zs)
    decreases |ys| + |zs|
  {
    if xs != [] {
      if ys[0] == zs[0] && Subsequence(ys[1..], zs[1..]) {
        if xs[0] == ys[0] && Subsequence(xs[1..], ys[1..]) {
          SubsequenceTrans(xs[1..], ys[1..], zs[1..]);
        } else {
          SubsequenceTrans(xs, ys[1..], zs[1..]);
        }
      } else {
        SubsequenceTrans(xs, ys, zs[1..]);
      }
    }
  }

  /** Subsequences concatenate. */
  lemma {:induction false} SubsequenceConcat<T>(xs: seq<T>, ys: seq<T>, us: seq<T>, vs: seq<T>)
    requires Subsequence(xs, ys) && Subsequence(us, vs)
    ensures Subsequence(xs + us, ys + vs)
    decreases |ys| + |vs|
  {
    if xs == [] && ys == [] {
      assert xs + us == us && ys + vs == vs;
    } else if xs == [] {
      SubsequenceConcat(xs, ys[1..], us, vs);
      assert (ys + vs)[1..] == ys[1..] + vs;
      SubsequenceSkip(xs + us, ys + vs);
    } else {
      assert (ys + vs)[1..] == ys[1..] + vs;
      assert (xs + us)[1..] == xs[1..] + us;
      if xs[0] == ys[0] && Subsequence(xs[1..], ys[1..]) {
        SubsequenceConcat(xs[1..], ys[1..], us, vs);
      } else {
        SubsequenceConcat(xs, ys[1..], us, vs);
      }
    }
  }

  lemma {:induction false} SubsequenceFilter<T>(xs: seq<T>, keep: T -> bool)
    ensures Subsequence(Filter(xs, keep), xs)
  {
    if xs != [] {
      SubsequenceFilter(xs[1..], keep);
      if keep(xs[0]) {
        assert Filter(xs, keep)[1..] == Filter(xs[1..], keep);
      } else if Filter(xs, keep) != [] {
        SubsequenceSkip(Filter(xs, keep), xs);
      }
    }
  }

  /** Filtering keeps the subsequence relation. */
  lemma {:induction false} SubsequenceFiltered<T>(xs: seq<T>, ys: seq<T>, keep: T -> bool)
    requires Subsequence(xs, ys)
    ensures Subsequence(Filter(xs, keep), Filter(ys, keep))
  {
    if xs != [] {
      if xs[0] == ys[0] && Subsequence(xs[1..], ys[1..]) {
        SubsequenceFiltered(xs[1..], ys[1..], keep);
        if keep(xs[0]) {
          assert Filter(xs, keep)[1..] == Filter(xs[1..], keep);
          assert Filter(ys, keep)[1..] == Filter(ys[1..], keep);
        }
      } else {
        SubsequenceFiltered(xs, ys[1..], keep);
        if keep(ys[0]) {
          assert Filter(ys, keep)[1..] == Filter(ys[1..], keep);
          SubsequenceSkip(Filter(xs, keep), Filter(ys, keep));
        } else {
          assert Filter(ys, keep) == Filter(ys[1..], keep);
        }
      }
    }
  }

  /** `rel` holds between every element of `xs` and every later one. */
  ghost predicate Pairwise<T>(xs: seq<T>, rel: (T, T) -> bool) {
    forall i, j :: 0 <= i < j < |xs| ==> rel(xs[i], xs[j])
  }

  lemma {:induction false} FilterPairwise<T>(xs: seq<T>, keep: T -> bool, rel: (T, T) -> bool)
    requires Pairwise(xs, rel)
    ensures Pairwise(Filter(xs, keep), rel)
  {
    if xs != [] {
      FilterPairwise(xs[1..], keep, rel);
      var rest := Filter(xs[1..], keep);
      forall j | 0 <= j < |rest| ensures rel(xs[0], rest[j]) {
        FilterMember(xs[1..], keep, rest[j]);
        var k :| 0 <= k < |xs[1..]| && xs[1..][k] == rest[j];
        assert xs[k + 1] == rest[j];
      }
    }
  }

  lemma {:induction false} FilterFilterSame<T>(xs: seq<T>, p: T -> bool, q: T -> bool)
    requires forall x :: x in xs && q(x) ==> p(x)
    ensures Filter(Filter(xs, p), q) == Filter(xs, q)
  {
    if xs != [] {
      FilterFilterSame(xs[1..], p, q);
      if p(xs[0]) {
        assert Filter(xs, p)[1..] == Filter(xs[1..], p);
      }
    }
  }

  lemma {:induction false} FilterFilterNone<T>(xs: seq<T>, p: T -> bool, q: T -> bool)
    requires forall x :: x in xs && q(x) ==> !p(x)
    ensures Filter(Filter(xs, p), q) == []
  {
    if xs != [] {
      FilterFilterNone(xs[1..], p, q);
      if p(xs[0]) {
        assert Filter(xs, p)[1..] == Filter(xs[1..], p);
      }
    }
  }

  lemma SubsequenceSuffix<T>(xs: seq<T>, ys: seq<T>)
    ensures Subsequence(ys, xs + ys)
  {
    SubsequenceRefl(ys);
    SubsequenceConcat([], xs, ys, ys);
    assert [] + ys == ys;
  }
}
