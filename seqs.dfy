/** Option/Result wrappers and the sequence operations the table queries are built from. */
module Seqs {

  datatype Option<+T> = None | Some(value: T)

  datatype Result<+T, +E> = Ok(value: T) | Err(error: E)

  /** JavaScript truthiness of an optional string: present and not empty. */
  predicate Truthy(s: Option<string>)
  {
    s.Some? && s.value != ""
  }

  /** JavaScript truthiness of an optional number: present and not zero. */
  predicate TruthyNumber(n: Option<int>)
  {
    n.Some? && n.value != 0
  }

  /** The message the store returns when `.single()` or `.maybeSingle()` sees the wrong number of rows. */
  const WrongRowCount: string := "JSON object requested, multiple (or no) rows returned"

  /** `array.filter(p)`: the elements of `s` satisfying `p`, in their original order. */
  function Filter<T(!new)>(s: seq<T>, p: T -> bool): (r: seq<T>)
    ensures |r| <= |s|
    ensures forall x :: x in r <==> x in s && p(x)
    ensures forall i :: 0 <= i < |r| ==> p(r[i])
  {
    if s == [] then []
    else
      var rest := Filter(s[..|s| - 1], p);
      assert s == s[..|s| - 1] + [s[|s| - 1]];
      if p(s[|s| - 1]) then rest + [s[|s| - 1]] else rest
  }

  /** No two rows share a key. */
  ghost predicate UniqueBy<T, K>(rows: seq<T>, key: T -> K)
  {
    forall i, j :: 0 <= i < j < |rows| ==> key(rows[i]) != key(rows[j])
  }

  /** Dropping rows keeps keys unique. */
  lemma {:induction false} FilterKeepsUnique<T(!new), K>(rows: seq<T>, p: T -> bool, key: T -> K)
    requires UniqueBy(rows, key)
    ensures UniqueBy(Filter(rows, p), key)
  {
    if rows != [] {
      var init := rows[..|rows| - 1];
      var last := rows[|rows| - 1];
      FilterKeepsUnique(init, p, key);
      var rest := Filter(init, p);
      assert forall k :: 0 <= k < |rest| ==> key(rest[k]) != key(last) by {
        forall k | 0 <= k < |rest| ensures key(rest[k]) != key(last) {
          assert rest[k] in init;
          var j :| 0 <= j < |init| && init[j] == rest[k];
          assert rows[j] == rest[k];
        }
      }
    }
  }

  /** A filter keeps each element at most as often as it occurs. */
  lemma {:induction false} FilterSubMultiset<T(!new)>(s: seq<T>, p: T -> bool)
    ensures multiset(Filter(s, p)) <= multiset(s)
  {
    if s != [] {
      FilterSubMultiset(s[..|s| - 1], p);
      assert s == s[..|s| - 1] + [s[|s| - 1]];
    }
  }

  /** Filtering by a predicate and by its negation splits `s` into two parts. */
  lemma {:induction false} FilterPartition<T(!new)>(s: seq<T>, p: T -> bool, q: T -> bool)
    requires forall x :: q(x) == !p(x)
    ensures multiset(Filter(s, p)) + multiset(Filter(s, q)) == multiset(s)
    ensures |Filter(s, p)| + |Filter(s, q)| == |s|
  {
    if s != [] {
      FilterPartition(s[..|s| - 1], p, q);
      assert s == s[..|s| - 1] + [s[|s| - 1]];
    }
  }

  /** Filtering a concatenation filters each part. */
  lemma {:induction false} FilterAppend<T(!new)>(a: seq<T>, b: seq<T>, p: T -> bool)
    ensures Filter(a + b, p) == Filter(a, p) + Filter(b, p)
  {
    if b == [] {
      assert a + b == a;
    } else {
      var b' := b[..|b| - 1];
      assert (a + b)[..|a + b| - 1] == a + b';
      FilterAppend(a, b', p);
    }
  }

  /** A filter every element passes returns the whole sequence. */
  lemma {:induction false} FilterAll<T(!new)>(s: seq<T>, p: T -> bool)
    requires forall i :: 0 <= i < |s| ==> p(s[i])
    ensures Filter(s, p) == s
  {
    if s != [] {
      FilterAll(s[..|s| - 1], p);
      assert s == s[..|s| - 1] + [s[|s| - 1]];
    }
  }

  /** A filter no element passes returns nothing. */
  lemma {:induction false} FilterNone<T(!new)>(s: seq<T>, p: T -> bool)
    requires forall i :: 0 <= i < |s| ==> !p(s[i])
    ensures Filter(s, p) == []
  {
    if s != [] {
      FilterNone(s[..|s| - 1], p);
    }
  }

  /** `array.filter(p).length`. */
  function Count<T(!new)>(s: seq<T>, p: T -> bool): (n: nat)
    ensures n <= |s|
  {
    |Filter(s, p)|
  }

  /** Filtering a sequence extended by one element. */
  lemma FilterSnoc<T(!new)>(s: seq<T>, x: T, p: T -> bool)
    ensures Filter(s + [x], p) == if p(x) then Filter(s, p) + [x] else Filter(s, p)
  {
    assert (s + [x])[..|s + [x]| - 1] == s;
  }

  /** Filtering first by a weaker predicate changes nothing. */
  lemma {:induction false} FilterNarrower<T(!new)>(s: seq<T>, p: T -> bool, q: T -> bool)
    requires forall x :: q(x) ==> p(x)
    ensures Filter(Filter(s, p), q) == Filter(s, q)
  {
    if s != [] {
      var init, last := s[..|s| - 1], s[|s| - 1];
      FilterNarrower(init, p, q);
      if p(last) {
        FilterSnoc(Filter(init, p), last, q);
      }
    }
  }

  /** Two predicates no element satisfies together count at most the whole sequence. */
  lemma {:induction false} CountDisjoint<T(!new)>(s: seq<T>, p: T -> bool, q: T -> bool)
    requires forall x :: !(p(x) && q(x))
    ensures Count(s, p) + Count(s, q) <= |s|
  {
    if s != [] {
      CountDisjoint(s[..|s| - 1], p, q);
      assert !(p(s[|s| - 1]) && q(s[|s| - 1]));
    }
  }

  /** `.maybeSingle()`: no row is `null`, one row is that row, more rows are an error. */
  function MaybeSingle<T>(s: seq<T>): (r: Result<Option<T>, string>)
    ensures r == Ok(None) <==> |s| == 0
    ensures (r.Ok? && r.value.Some?) <==> |s| == 1
    ensures r.Ok? && r.value.Some? ==> r.value.value == s[0]
    ensures r.Err? <==> |s| > 1
  {
    if |s| == 0 then Ok(None)
    else if |s| == 1 then Ok(Some(s[0]))
    else Err(WrongRowCount)
  }

  /** `.single()`: exactly one row, otherwise an error. */
  function Single<T>(s: seq<T>): (r: Result<T, string>)
    ensures r.Ok? <==> |s| == 1
    ensures r.Ok? ==> r.value == s[0]
  {
    if |s| == 1 then Ok(s[0]) else Err(WrongRowCount)
  }
}

/** The `.order(..., { ascending: false })` of the store, as a stable insertion sort. */
module Ordering {
  import opened Seqs

  ghost predicate NonIncreasing<T>(s: seq<T>, key: T -> int)
  {
    forall i, j :: 0 <= i < j < |s| ==> key(s[i]) >= key(s[j])
  }

  /** Puts `x` in front of the first element whose key is not larger. */
  function Insert<T>(x: T, s: seq<T>, key: T -> int): (r: seq<T>)
    requires NonIncreasing(s, key)
    ensures NonIncreasing(r, key)
    ensures multiset(r) == multiset(s) + multiset{x}
    ensures |r| == |s| + 1
    ensures r[0] == x || (s != [] && r[0] == s[0])
  {
    if s == [] || key(x) >= key(s[0]) then
      [x] + s
    else
      var rest := Insert(x, s[1..], key);
      assert s == [s[0]] + s[1..];
      assert key(rest[0]) <= key(s[0]);
      [s[0]] + rest
  }

  /** Two sequences with the same multiset have the same elements. */
  lemma SameMembers<T>(a: seq<T>, b: seq<T>)
    requires multiset(a) == multiset(b)
    ensures forall x :: x in a <==> x in b
  {
    forall x ensures x in a <==> x in b {
      assert x in a <==> x in multiset(a);
      assert x in b <==> x in multiset(b);
    }
  }

  /** The rows ordered by `key`, largest first. */
  function SortDesc<T(!new)>(s: seq<T>, key: T -> int): (r: seq<T>)
    ensures NonIncreasing(r, key)
    ensures multiset(r) == multiset(s)
    ensures |r| == |s|
    ensures forall x :: x in r <==> x in s
  {
    if s == [] then []
    else
      var sorted := SortDesc(s[1..], key);
      var r := Insert(s[0], sorted, key);
      assert s == [s[0]] + s[1..];
      assert multiset(r) == multiset(s);
      SameMembers(r, s);
      r
  }

  /** Filtering a newest-first listing keeps it newest first. */
  lemma {:induction false} FilterNonIncreasing<T(!new)>(s: seq<T>, p: T -> bool, key: T -> int)
    requires NonIncreasing(s, key)
    ensures NonIncreasing(Filter(s, p), key)
  {
    if s != [] {
      var init := s[..|s| - 1];
      var last := s[|s| - 1];
      assert NonIncreasing(init, key);
      FilterNonIncreasing(init, p, key);
      var rest := Filter(init, p);
      assert forall k :: 0 <= k < |rest| ==> key(rest[k]) >= key(last) by {
        forall k | 0 <= k < |rest| ensures key(rest[k]) >= key(last) {
          assert rest[k] in init;
          var j :| 0 <= j < |init| && init[j] == rest[k];
          assert s[j] == rest[k];
        }
      }
    }
  }
}
