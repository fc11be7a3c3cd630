/**
 * The row selections the route handlers ask of the database, as functions
 * over a table held as a sequence of rows: `WHERE` (Where, First),
 * `ORDER BY key DESC LIMIT n` (OrderByDescLimit), and `Array.prototype.reverse`.
 */
module Query {
  import opened Wrappers

  /** `SELECT ... WHERE p`: the rows satisfying `p`, in table order. */
  function Where<T>(rows: seq<T>, p: T -> bool): (r: seq<T>)
    ensures |r| <= |rows|
    ensures forall i :: 0 <= i < |r| ==> r[i] in rows && p(r[i])
    ensures forall i :: 0 <= i < |rows| && p(rows[i]) ==> rows[i] in r
  {
    if rows == [] then []
    else if p(rows[0]) then [rows[0]] + Where(rows[1..], p)
    else Where(rows[1..], p)
  }

  /** A filter finds nothing exactly when no row satisfies it. */
  lemma {:induction false} WhereEmptyIff<T>(rows: seq<T>, p: T -> bool)
    ensures Where(rows, p) == [] <==> forall i :: 0 <= i < |rows| ==> !p(rows[i])
  {
    if rows != [] {
      WhereEmptyIff(rows[1..], p);
      assert forall i :: 1 <= i < |rows| ==> rows[i] == rows[1..][i - 1];
    }
  }

  /** Filtering a concatenation filters each part. */
  lemma {:induction false} WhereConcat<T>(a: seq<T>, b: seq<T>, p: T -> bool)
    ensures Where(a + b, p) == Where(a, p) + Where(b, p)
  {
    if a != [] {
      assert (a + b)[1..] == a[1..] + b;
      WhereConcat(a[1..], b, p);
    } else {
      assert a + b == b;
    }
  }

  /** A filter every row passes keeps the whole table. */
  lemma {:induction false} WhereAll<T>(rows: seq<T>, p: T -> bool)
    requires forall i :: 0 <= i < |rows| ==> p(rows[i])
    ensures Where(rows, p) == rows
  {
    if rows != [] {
      assert forall i :: 0 <= i < |rows[1..]| ==> rows[1..][i] == rows[i + 1];
      WhereAll(rows[1..], p);
    }
  }

  /** Filtering by `p` and then by a stronger `q` is filtering by `q`. */
  lemma {:induction false} WhereNarrowed<T>(rows: seq<T>, p: T -> bool, q: T -> bool)
    requires forall i :: 0 <= i < |rows| && q(rows[i]) ==> p(rows[i])
    ensures Where(Where(rows, p), q) == Where(rows, q)
  {
    if rows != [] {
      assert forall i :: 0 <= i < |rows[1..]| ==> rows[1..][i] == rows[i + 1];
      WhereNarrowed(rows[1..], p, q);
    }
  }

  /** Filtering by `p` and then by a `q` no row passes together with `p` leaves nothing. */
  lemma {:induction false} WhereDisjoint<T>(rows: seq<T>, p: T -> bool, q: T -> bool)
    requires forall i :: 0 <= i < |rows| ==> !(p(rows[i]) && q(rows[i]))
    ensures Where(Where(rows, p), q) == []
  {
    if rows != [] {
      assert forall i :: 0 <= i < |rows[1..]| ==> rows[1..][i] == rows[i + 1];
      WhereDisjoint(rows[1..], p, q);
    }
  }

  /** Rows whose keys strictly increase in table order. */
  predicate StrictlyIncreasing<T>(rows: seq<T>, key: T -> int) {
    forall i, j :: 0 <= i < j < |rows| ==> key(rows[i]) < key(rows[j])
  }

  /** Filtering keeps rows in table order, so it keeps increasing keys increasing. */
  lemma {:induction false} WhereKeepsIncreasing<T>(rows: seq<T>, p: T -> bool, key: T -> int)
    requires StrictlyIncreasing(rows, key)
    ensures StrictlyIncreasing(Where(rows, p), key)
  {
    if rows != [] {
      WhereKeepsIncreasing(rows[1..], p, key);
      var rest := Where(rows[1..], p);
      forall i | 0 <= i < |rest| ensures key(rows[0]) < key(rest[i]) {
        var j :| 0 <= j < |rows[1..]| && rows[1..][j] == rest[i];
        assert rows[j + 1] == rest[i];
      }
    }
  }

  /** `rows[0]` of a `WHERE p` query: the first row satisfying `p`, if any. */
  function First<T>(rows: seq<T>, p: T -> bool): (r: Option<T>)
    ensures r.None? <==> forall i :: 0 <= i < |rows| ==> !p(rows[i])
    ensures r.Some? ==> exists i :: 0 <= i < |rows| && rows[i] == r.value && p(rows[i])
                           && forall j :: 0 <= j < i ==> !p(rows[j])
  {
    if rows == [] then None
    else if p(rows[0]) then Some(rows[0])
    else
      var r := First(rows[1..], p);
      assert r.Some? ==> exists i :: 0 <= i < |rows[1..]| && rows[1..][i] == r.value && p(rows[1..][i])
                           && forall j :: 0 <= j < i ==> !p(rows[1..][j]);
      assert r.Some? ==> exists i :: 1 <= i < |rows| && rows[i] == r.value && p(rows[i])
                           && forall j :: 0 <= j < i ==> !p(rows[j]);
      r
  }

  /** The first matching row is the head of the filtered table. */
  lemma {:induction false} FirstIsHeadOfWhere<T>(rows: seq<T>, p: T -> bool)
    ensures First(rows, p) == if Where(rows, p) == [] then None else Some(Where(rows, p)[0])
  {
    if rows != [] && !p(rows[0]) {
      FirstIsHeadOfWhere(rows[1..], p);
    }
  }

  /** Rows in non-increasing key order (newest first, for a time key). */
  predicate SortedDesc<T>(rows: seq<T>, key: T -> int) {
    forall i, j :: 0 <= i < j < |rows| ==> key(rows[i]) >= key(rows[j])
  }

  /** Rows in non-decreasing key order (oldest first, for a time key). */
  predicate SortedAsc<T>(rows: seq<T>, key: T -> int) {
    forall i, j :: 0 <= i < j < |rows| ==> key(rows[i]) <= key(rows[j])
  }

  /** Inserts `x` into rows already sorted newest first, before the rows with its key. */
  function Insert<T>(x: T, rows: seq<T>, key: T -> int): (r: seq<T>)
    requires SortedDesc(rows, key)
    ensures SortedDesc(r, key)
    ensures multiset(r) == multiset(rows) + multiset{x}
    ensures |r| == |rows| + 1
  {
    if rows == [] then [x]
    else if key(x) >= key(rows[0]) then [x] + rows
    else
      var rest := Insert(x, rows[1..], key);
      assert rows == [rows[0]] + rows[1..];
      assert forall k :: 0 <= k < |rest| ==> key(rows[0]) >= key(rest[k]) by {
        forall k | 0 <= k < |rest| ensures key(rows[0]) >= key(rest[k]) {
          assert rest[k] in multiset(rest);
          assert rest[k] == x || rest[k] in multiset(rows[1..]);
          if rest[k] != x {
            var j :| 0 <= j < |rows[1..]| && rows[1..][j] == rest[k];
            assert rows[j + 1] == rest[k];
          }
        }
      }
      [rows[0]] + rest
  }

  /** The table sorted newest first (rows with equal keys keep table order). */
  function SortDesc<T>(rows: seq<T>, key: T -> int): (r: seq<T>)
    ensures SortedDesc(r, key)
    ensures multiset(r) == multiset(rows)
    ensures |r| == |rows|
  {
    if rows == [] then []
    else
      assert rows == [rows[0]] + rows[1..];
      Insert(rows[0], SortDesc(rows[1..], key), key)
  }

  /** A prefix of a newest-first list holds its newest rows. */
  lemma PrefixIsNewest<T>(sorted: seq<T>, key: T -> int, n: nat)
    requires SortedDesc(sorted, key)
    requires n <= |sorted|
    ensures SortedDesc(sorted[..n], key)
    ensures multiset(sorted[..n]) <= multiset(sorted)
    ensures multiset(sorted) - multiset(sorted[..n]) == multiset(sorted[n..])
    ensures forall x | x in multiset(sorted[n..]) :: forall i | 0 <= i < n :: key(x) <= key(sorted[i])
  {
    assert sorted == sorted[..n] + sorted[n..];
    forall x | x in multiset(sorted[n..]) ensures forall i | 0 <= i < n :: key(x) <= key(sorted[i]) {
      var j :| 0 <= j < |sorted[n..]| && sorted[n..][j] == x;
      assert sorted[n + j] == x;
    }
  }

  /**
   * `ORDER BY key DESC LIMIT limit`: the `limit` rows with the largest keys
   * (all rows if there are fewer), newest first.
   */
  function OrderByDescLimit<T>(rows: seq<T>, key: T -> int, limit: nat): (r: seq<T>)
    ensures |r| == if |rows| < limit then |rows| else limit
    ensures SortedDesc(r, key)
    ensures multiset(r) <= multiset(rows)
    ensures forall x | x in multiset(rows) - multiset(r) :: forall i | 0 <= i < |r| :: key(x) <= key(r[i])
  {
    var sorted := SortDesc(rows, key);
    var n := if |rows| < limit then |rows| else limit;
    PrefixIsNewest(sorted, key, n);
    assert multiset(rows) - multiset(sorted[..n]) == multiset(sorted[n..]);
    sorted[..n]
  }

  /** `Array.prototype.reverse`: the rows in the opposite order. */
  function Reverse<T>(rows: seq<T>): (r: seq<T>)
    ensures |r| == |rows|
    ensures forall i :: 0 <= i < |rows| ==> r[i] == rows[|rows| - 1 - i]
  {
    if rows == [] then [] else Reverse(rows[1..]) + [rows[0]]
  }

  /** Reversing a newest-first list lists the same rows oldest first. */
  lemma ReverseOfDescIsAsc<T>(rows: seq<T>, key: T -> int)
    requires SortedDesc(rows, key)
    ensures SortedAsc(Reverse(rows), key)
    ensures multiset(Reverse(rows)) == multiset(rows)
  {
    var r := Reverse(rows);
    forall i, j | 0 <= i < j < |r| ensures key(r[i]) <= key(r[j]) {
      assert r[i] == rows[|rows| - 1 - i] && r[j] == rows[|rows| - 1 - j];
    }
    ReverseMultiset(rows);
  }

  /** Reversing keeps the multiset of rows. */
  lemma {:induction false} ReverseMultiset<T>(rows: seq<T>)
    ensures multiset(Reverse(rows)) == multiset(rows)
  {
    if rows != [] {
      ReverseMultiset(rows[1..]);
      assert rows == [rows[0]] + rows[1..];
    }
  }
}
