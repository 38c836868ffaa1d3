/**
  The PostgREST query vocabulary the route handlers use, over a table held
  as a sequence of rows: `.eq(...)` filters (`Where`), `.single()` (exactly
  one match), `.order(key, { ascending: false })` (`SortNewest`) and
  `.limit(n)` (`Take`).
  */
module Table {
  import opened Wrappers

  /** The rows satisfying `p`, in table order. */
  function Where<T(!new)>(rows: seq<T>, p: T -> bool): (r: seq<T>)
    ensures |r| <= |rows|
    ensures forall x :: x in r <==> x in rows && p(x)
    ensures forall i :: 0 <= i < |r| ==> p(r[i])
    decreases |rows|
  {
    if rows == [] then []
    else (if p(rows[0]) then [rows[0]] else []) + Where(rows[1..], p)
  }

  /** Filtering distributes over concatenation, so it keeps the relative
      order of the rows it keeps. */
  lemma {:induction false} WhereAppend<T(!new)>(a: seq<T>, b: seq<T>, p: T -> bool)
    ensures Where(a + b, p) == Where(a, p) + Where(b, p)
    decreases |a|
  {
    if a != [] {
      assert (a + b)[0] == a[0];
      assert (a + b)[1..] == a[1..] + b;
      WhereAppend(a[1..], b, p);
      calc {
        Where(a + b, p);
        (if p(a[0]) then [a[0]] else []) + Where(a[1..] + b, p);
        (if p(a[0]) then [a[0]] else []) + (Where(a[1..], p) + Where(b, p));
        ((if p(a[0]) then [a[0]] else []) + Where(a[1..], p)) + Where(b, p);
      }
    } else {
      assert a + b == b;
    }
  }

  /** Rows failing `p` are dropped; a table where every row passes is kept. */
  lemma {:induction false} WhereAll<T(!new)>(rows: seq<T>, p: T -> bool)
    requires forall i :: 0 <= i < |rows| ==> p(rows[i])
    ensures Where(rows, p) == rows
    decreases |rows|
  {
    if rows != [] {
      WhereAll(rows[1..], p);
    }
  }

  /** One more row of a prefix is kept exactly when it passes. */
  lemma WhereSnoc<T(!new)>(rows: seq<T>, i: nat, p: T -> bool)
    requires i < |rows|
    ensures Where(rows[..i + 1], p) == Where(rows[..i], p) + (if p(rows[i]) then [rows[i]] else [])
  {
    assert rows[..i + 1] == rows[..i] + [rows[i]];
    WhereAppend(rows[..i], [rows[i]], p);
  }

  /** Filtering twice is filtering once by both conditions. */
  lemma {:induction false} WhereWhere<T(!new)>(rows: seq<T>, p: T -> bool, q: T -> bool, both: T -> bool)
    requires forall x :: both(x) == (p(x) && q(x))
    ensures Where(Where(rows, p), q) == Where(rows, both)
    decreases |rows|
  {
    if rows != [] {
      WhereWhere(rows[1..], p, q, both);
      var head := if p(rows[0]) then [rows[0]] else [];
      WhereAppend(head, Where(rows[1..], p), q);
      if p(rows[0]) {
        assert Where(head, q) == (if q(rows[0]) then [rows[0]] else []) by {
          assert head[1..] == [];
        }
      }
    }
  }

  /** Filters by predicates that agree on every row are equal. */
  lemma {:induction false} WhereExtensional<T(!new)>(rows: seq<T>, p: T -> bool, q: T -> bool)
    requires forall x :: p(x) == q(x)
    ensures Where(rows, p) == Where(rows, q)
    decreases |rows|
  {
    if rows != [] {
      WhereExtensional(rows[1..], p, q);
    }
  }

  /** No row satisfies `p`: the filter is empty. */
  lemma WhereNone<T(!new)>(rows: seq<T>, p: T -> bool)
    requires forall k :: 0 <= k < |rows| ==> !p(rows[k])
    ensures Where(rows, p) == []
  {
  }

  /** When exactly the row at `n` satisfies `p`, the filter keeps only it. */
  lemma {:induction false} WhereOnly<T(!new)>(rows: seq<T>, p: T -> bool, n: nat)
    requires n < |rows| && p(rows[n])
    requires forall k :: 0 <= k < |rows| && k != n ==> !p(rows[k])
    ensures Where(rows, p) == [rows[n]]
    decreases |rows|
  {
    if n == 0 {
      WhereNone(rows[1..], p);
    } else {
      WhereOnly(rows[1..], p, n - 1);
    }
  }

  /** Two rows satisfying `p` make the filter hold at least two. */
  lemma {:induction false} WhereTwo<T(!new)>(rows: seq<T>, p: T -> bool, i: nat, j: nat)
    requires i < j < |rows| && p(rows[i]) && p(rows[j])
    ensures |Where(rows, p)| >= 2
    decreases |rows|
  {
    if i == 0 {
      assert rows[j] in rows[1..];
      assert rows[j] in Where(rows[1..], p);
    } else {
      WhereTwo(rows[1..], p, i - 1, j - 1);
    }
  }

  /** `.single()`: the matching row when there is exactly one, otherwise
      nothing (PostgREST answers an error for no row and for several). */
  function Single<T(!new)>(rows: seq<T>, p: T -> bool): (r: Option<T>)
    ensures r.Some? <==> |Where(rows, p)| == 1
    ensures r.Some? ==> r.value in rows && p(r.value)
    ensures r.Some? ==> forall x :: x in rows && p(x) ==> x == r.value
  {
    var w := Where(rows, p);
    if |w| == 1 then Some(w[0]) else None
  }

  /** The first index whose row satisfies `p`. */
  function IndexWhere<T>(rows: seq<T>, p: T -> bool): (r: Option<nat>)
    ensures r.Some? ==> r.value < |rows| && p(rows[r.value])
    ensures r.Some? ==> forall k :: 0 <= k < r.value ==> !p(rows[k])
    ensures r.None? <==> forall k :: 0 <= k < |rows| ==> !p(rows[k])
    decreases |rows|
  {
    if rows == [] then None
    else if p(rows[0]) then Some(0)
    else
      var rest := IndexWhere(rows[1..], p);
      if rest.Some? then Some(rest.value + 1) else None
  }

  predicate NewestFirst<T>(s: seq<T>, key: T -> int) {
    forall i, j :: 0 <= i < j < |s| ==> key(s[i]) >= key(s[j])
  }

  function InsertNewest<T(!new)>(x: T, s: seq<T>, key: T -> int): (r: seq<T>)
    requires NewestFirst(s, key)
    ensures NewestFirst(r, key)
    ensures multiset(r) == multiset(s) + multiset{x}
    ensures |r| == |s| + 1
    ensures key(r[0]) == key(x) || (s != [] && key(r[0]) == key(s[0]))
    decreases |s|
  {
    if s == [] then [x]
    else if key(x) >= key(s[0]) then
      ConsNewest(x, s, key);
      [x] + s
    else
      assert s == [s[0]] + s[1..];
      var rest := InsertNewest(x, s[1..], key);
      ConsNewest(s[0], rest, key);
      [s[0]] + rest
  }

  /** A head no older than the first element keeps a list newest first. */
  lemma ConsNewest<T>(h: T, s: seq<T>, key: T -> int)
    requires NewestFirst(s, key) && (s == [] || key(h) >= key(s[0]))
    ensures NewestFirst([h] + s, key)
  {
    var r := [h] + s;
    forall i, j | 0 <= i < j < |r| ensures key(r[i]) >= key(r[j]) {
      if i > 0 {
        assert r[i] == s[i - 1] && r[j] == s[j - 1];
      } else {
        assert r[j] == s[j - 1];
        assert key(s[0]) >= key(s[j - 1]) || j - 1 == 0;
      }
    }
  }

  /** `.order(key, { ascending: false })`: a permutation of the rows with
      the largest key first. */
  function SortNewest<T(!new)>(s: seq<T>, key: T -> int): (r: seq<T>)
    ensures NewestFirst(r, key)
    ensures multiset(r) == multiset(s)
    decreases |s|
  {
    if s == [] then []
    else
      assert s == [s[0]] + s[1..];
      InsertNewest(s[0], SortNewest(s[1..], key), key)
  }

  /** `.limit(n)` for `n >= 0`. */
  function Take<T>(s: seq<T>, n: nat): (r: seq<T>)
    ensures |r| == if n < |s| then n else |s|
    ensures r == s[..|r|]
  {
    if n < |s| then s[..n] else s
  }

  /** A prefix of a newest-first list is newest first, and no row left out
      is newer than the last row kept. */
  lemma TakeNewest<T>(s: seq<T>, n: nat, key: T -> int)
    requires NewestFirst(s, key)
    ensures NewestFirst(Take(s, n), key)
    ensures forall i, j :: 0 <= i < |Take(s, n)| <= j < |s| ==> key(s[i]) >= key(s[j])
  {
  }

  /** A prefix holds each element at most as often as the whole list. */
  lemma TakeSubMultiset<T>(s: seq<T>, n: nat)
    ensures multiset(Take(s, n)) <= multiset(s)
  {
    var r := Take(s, n);
    assert s == r + s[|r|..];
    assert multiset(s) == multiset(r) + multiset(s[|r|..]);
  }
}
