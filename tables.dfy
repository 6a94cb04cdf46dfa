/**
 * Relational vocabulary shared by every SQL statement of the pipeline.
 *
 * A table is a sequence of rows: the order stands for the order in which the
 * store happens to return them and carries no meaning, duplicates are real
 * rows.  The operations are the pieces the statements are built from:
 * WHERE (Filter), SELECT DISTINCT (Distinct), the projection of a SELECT list
 * (Project), a cross join (Cross), the values a LEFT JOIN contributes for one
 * probe key (LeftJoinValues) and "INSERT ... WHERE key NOT IN (SELECT key
 * FROM table)" (NewRows, InsertMissing).
 */
module Tables {

  /** A nullable column value. */
  datatype Option<T> = None | Some(value: T)

  /** Rows of `s` that satisfy `p`, in their original order, each with its multiplicity. */
  function Filter<T(==,!new)>(s: seq<T>, p: T -> bool): (r: seq<T>)
    ensures |r| <= |s|
    ensures forall x :: x in r <==> x in s && p(x)
    decreases |s|
  {
    if |s| == 0 then []
    else
      assert s == [s[0]] + s[1..];
      (if p(s[0]) then [s[0]] else []) + Filter(s[1..], p)
  }

  /** Filter keeps every selected row with its multiplicity and drops the others entirely. */
  lemma {:induction false} FilterMultiplicity<T(!new)>(s: seq<T>, p: T -> bool)
    ensures forall x :: multiset(Filter(s, p))[x] == if p(x) then multiset(s)[x] else 0
    decreases |s|
  {
    if |s| > 0 {
      FilterMultiplicity(s[1..], p);
      assert s == [s[0]] + s[1..];
    }
  }

  /** No row occurs twice. */
  ghost predicate NoDuplicates<T>(s: seq<T>) {
    forall i, j :: 0 <= i < j < |s| ==> s[i] != s[j]
  }

  /** SELECT DISTINCT: every row of `s` once, at its first occurrence. */
  function Distinct<T(==,!new)>(s: seq<T>): (r: seq<T>)
    ensures NoDuplicates(r)
    ensures forall x :: x in r <==> x in s
    ensures |r| <= |s|
  {
    if |s| == 0 then []
    else
      var last := s[|s| - 1];
      var d := Distinct(s[..|s| - 1]);
      assert s == s[..|s| - 1] + [last];
      if last in d then d else d + [last]
  }

  /** The SELECT list applied to every row. */
  function Project<A, B>(s: seq<A>, f: A -> B): (r: seq<B>)
    ensures |r| == |s|
    ensures forall i :: 0 <= i < |s| ==> r[i] == f(s[i])
    ensures forall x :: x in s ==> f(x) in r
    ensures forall y :: y in r ==> exists x :: x in s && y == f(x)
  {
    var r := seq(|s|, i requires 0 <= i < |s| => f(s[i]));
    assert forall y :: y in r ==> exists x :: x in s && y == f(x) by {
      forall y | y in r ensures exists x :: x in s && y == f(x) {
        var i :| 0 <= i < |r| && r[i] == y;
        assert s[i] in s;
      }
    }
    r
  }

  /** Every pair of a row of `a` with a row of `b` (FROM a, b). */
  function Cross<A(==,!new), B(==,!new)>(a: seq<A>, b: seq<B>): (r: seq<(A, B)>)
    ensures forall x, y :: (x, y) in r <==> x in a && y in b
    decreases |a|
  {
    if |a| == 0 then []
    else
      var head := Project(b, y => (a[0], y));
      assert forall y :: (a[0], y) in head <==> y in b by {
        forall y ensures (a[0], y) in head <==> y in b {
          if y in b {
            var j :| 0 <= j < |b| && b[j] == y;
            assert head[j] == (a[0], y);
          }
        }
      }
      assert forall x, y :: (x, y) in head ==> x == a[0];
      assert a == [a[0]] + a[1..];
      head + Cross(a[1..], b)
  }

  /** FROM a, b has |a| * |b| rows. */
  lemma {:induction false} CrossLength<A(!new), B(!new)>(a: seq<A>, b: seq<B>)
    ensures |Cross(a, b)| == |a| * |b|
    decreases |a|
  {
    if |a| > 0 {
      CrossLength(a[1..], b);
      assert |a| * |b| == |b| + (|a| - 1) * |b|;
    }
  }

  /** The set of keys of the rows of `s` (SELECT key FROM s). */
  function KeySet<T(==,!new), K(==)>(s: seq<T>, key: T -> K): (ks: set<K>)
    ensures forall x :: x in s ==> key(x) in ks
    ensures forall k :: k in ks ==> exists x :: x in s && key(x) == k
  {
    set x | x in s :: key(x)
  }

  /** The rows of `s` whose key is `probe` (the right side of an equi-join for one probe). */
  function Matching<T(==,!new), K(==)>(s: seq<T>, key: T -> K, probe: K): (r: seq<T>)
    ensures forall x :: x in r <==> x in s && key(x) == probe
  {
    Filter(s, x => key(x) == probe)
  }

  /**
   * What "LEFT JOIN s ON key = probe" contributes to one left row: the
   * selected value of every matching row, or a single NULL when no row
   * matches, so the left row is never lost.
   */
  function LeftJoinValues<T(==,!new), K(==), V(!new)>(s: seq<T>, key: T -> K, probe: K, value: T -> V): (r: seq<Option<V>>)
    ensures |r| == if |Matching(s, key, probe)| == 0 then 1 else |Matching(s, key, probe)|
    ensures None in r <==> probe !in KeySet(s, key)
    ensures forall v :: Some(v) in r <==> exists x :: x in s && key(x) == probe && value(x) == v
  {
    var m := Matching(s, key, probe);
    if |m| == 0 then
      [None]
    else
      var r := Project(m, x => Some(value(x)));
      assert m[0] in s && key(m[0]) == probe;
      assert forall v :: Some(v) in r <==> exists x :: x in m && value(x) == v by {
        forall v ensures Some(v) in r <==> exists x :: x in m && value(x) == v {
          if exists x :: x in m && value(x) == v {
            var x :| x in m && value(x) == v;
            var j :| 0 <= j < |m| && m[j] == x;
            assert r[j] == Some(v);
          }
        }
      }
      r
  }

  /** Proof aid: appending rows to the empty sequence yields those rows. */
  lemma AppendToEmpty<T>(s: seq<T>)
    ensures [] + s == s
  {
  }

  /** Larger of 1 and n: the number of rows a LEFT JOIN produces for n matches. */
  function AtLeastOne(n: nat): nat {
    if n == 0 then 1 else n
  }

  /**
   * The rows "INSERT INTO table SELECT DISTINCT ... WHERE key NOT IN
   * (SELECT key FROM table)" adds: the distinct candidates whose key the
   * table does not yet hold.  The absence check is made against the table as
   * it was before the statement, so two distinct candidates with one new key
   * are both added.
   */
  function NewRows<T(==,!new), K(==)>(table: seq<T>, candidates: seq<T>, key: T -> K): (r: seq<T>)
    ensures NoDuplicates(r)
    ensures forall x :: x in r <==> x in candidates && key(x) !in KeySet(table, key)
  {
    var present := KeySet(table, key);
    Distinct(Filter(candidates, x => key(x) !in present))
  }

  /** The table after the anti-join insert: the old rows, untouched, then the new ones. */
  function InsertMissing<T(==,!new), K(==)>(table: seq<T>, candidates: seq<T>, key: T -> K): (r: seq<T>)
    ensures |r| >= |table| && r[..|table|] == table
  {
    table + NewRows(table, candidates, key)
  }

  /** No two rows share a key. */
  ghost predicate UniqueKeys<T, K>(s: seq<T>, key: T -> K) {
    forall i, j :: 0 <= i < j < |s| ==> key(s[i]) != key(s[j])
  }

  /** Within `s` the key determines the whole row. */
  ghost predicate KeyDeterminesRow<T, K>(s: seq<T>, key: T -> K) {
    forall x, y :: x in s && y in s && key(x) == key(y) ==> x == y
  }

  /** The key determines the row when any two positions with one key hold one row. */
  lemma {:induction false} KeyDeterminesRowByIndex<T(!new), K>(s: seq<T>, key: T -> K)
    requires forall i, j :: 0 <= i < |s| && 0 <= j < |s| && key(s[i]) == key(s[j]) ==> s[i] == s[j]
    ensures KeyDeterminesRow(s, key)
  {
    forall x, y | x in s && y in s && key(x) == key(y) ensures x == y {
      var i :| 0 <= i < |s| && s[i] == x;
      var j :| 0 <= j < |s| && s[j] == y;
    }
  }

  /** After the insert the table holds exactly the old keys and the candidates' keys. */
  lemma {:induction false} InsertMissingKeys<T(!new), K>(table: seq<T>, candidates: seq<T>, key: T -> K)
    ensures KeySet(InsertMissing(table, candidates, key), key) == KeySet(table, key) + KeySet(candidates, key)
  {
    var after := InsertMissing(table, candidates, key);
    var added := NewRows(table, candidates, key);
    assert after == table + added;
    forall k | k in KeySet(after, key) ensures k in KeySet(table, key) + KeySet(candidates, key) {
      var x :| x in after && key(x) == k;
      if x !in table {
        assert x in added;
      }
    }
    forall k | k in KeySet(candidates, key) ensures k in KeySet(after, key) {
      var x :| x in candidates && key(x) == k;
      if k !in KeySet(table, key) {
        assert x in added;
        assert x in after;
      }
    }
  }

  lemma NoMembersMeansEmpty<T>(s: seq<T>)
    ensures (forall x :: x !in s) ==> s == []
  {
    assert s == [] || s[0] in s;
  }

  /** A statement whose candidates' keys are all present already inserts nothing. */
  lemma {:induction false} CoveredInsertsNothing<T(!new), K>(table: seq<T>, candidates: seq<T>, key: T -> K)
    requires KeySet(candidates, key) <= KeySet(table, key)
    ensures NewRows(table, candidates, key) == []
  {
    var r := NewRows(table, candidates, key);
    forall x | x in candidates ensures x !in r {
      assert key(x) in KeySet(candidates, key);
    }
    NoMembersMeansEmpty(r);
  }

  /** Running the same insert a second time adds no rows. */
  lemma InsertMissingIdempotent<T(!new), K>(table: seq<T>, candidates: seq<T>, key: T -> K)
    ensures NewRows(InsertMissing(table, candidates, key), candidates, key) == []
    ensures InsertMissing(InsertMissing(table, candidates, key), candidates, key) == InsertMissing(table, candidates, key)
  {
    InsertMissingKeys(table, candidates, key);
    CoveredInsertsNothing(InsertMissing(table, candidates, key), candidates, key);
  }

  /**
   * A second run whose candidates carry no key beyond those of the first run
   * (for instance the same extract staged again at a later load time) adds
   * no rows, even though its rows differ from the first run's.
   */
  lemma RerunWithKnownKeysAddsNothing<T(!new), K>(table: seq<T>, first: seq<T>, second: seq<T>, key: T -> K)
    requires KeySet(second, key) <= KeySet(first, key)
    ensures NewRows(InsertMissing(table, first, key), second, key) == []
  {
    InsertMissingKeys(table, first, key);
    CoveredInsertsNothing(InsertMissing(table, first, key), second, key);
  }

  /**
   * The insert keeps a table free of repeated keys when, among the
   * candidates, the key determines the row.
   */
  lemma {:induction false} InsertMissingKeepsKeysUnique<T(!new), K>(table: seq<T>, candidates: seq<T>, key: T -> K)
    requires UniqueKeys(table, key)
    requires KeyDeterminesRow(candidates, key)
    ensures UniqueKeys(InsertMissing(table, candidates, key), key)
  {
    var added := NewRows(table, candidates, key);
    var after := table + added;
    forall i, j | 0 <= i < j < |after| ensures key(after[i]) != key(after[j]) {
      if j < |table| {
      } else if i < |table| {
        assert after[j] == added[j - |table|];
        assert after[j] in added;
        assert after[i] in table;
      } else {
        assert after[i] == added[i - |table|] && after[j] == added[j - |table|];
        assert after[i] in added && after[j] in added;
      }
    }
  }

  /**
   * Without that premise the insert can add several rows with one key: two
   * distinct candidates that share a key absent from the table are both
   * inserted.  This is the satellite loaders' behaviour within one run.
   */
  lemma {:induction false} SharedNewKeyInsertsBoth<T(!new), K>(table: seq<T>, candidates: seq<T>, key: T -> K, x: T, y: T)
    requires x in candidates && y in candidates && x != y && key(x) == key(y)
    requires key(x) !in KeySet(table, key)
    ensures x in NewRows(table, candidates, key) && y in NewRows(table, candidates, key)
    ensures !UniqueKeys(InsertMissing(table, candidates, key), key)
  {
    var added := NewRows(table, candidates, key);
    var after := table + added;
    var i :| 0 <= i < |added| && added[i] == x;
    var j :| 0 <= j < |added| && added[j] == y;
    assert after[|table| + i] == x && after[|table| + j] == y;
    if i < j {
      assert key(after[|table| + i]) == key(after[|table| + j]);
    } else {
      assert key(after[|table| + j]) == key(after[|table| + i]);
    }
  }

  /** A candidate whose key is already present is never inserted, whatever its payload. */
  lemma PresentKeyIsNeverReinserted<T(!new), K>(table: seq<T>, candidates: seq<T>, key: T -> K, x: T)
    requires key(x) in KeySet(table, key)
    ensures x !in NewRows(table, candidates, key)
  {
  }

  /** The rows of a key already present are exactly the old ones: a later insert never adds to them. */
  lemma {:induction false} PresentKeyRowsAreOld<T(!new), K>(table: seq<T>, candidates: seq<T>, key: T -> K, k: K)
    requires k in KeySet(table, key)
    ensures forall x :: x in InsertMissing(table, candidates, key) && key(x) == k ==> x in table
  {
    var added := NewRows(table, candidates, key);
    assert InsertMissing(table, candidates, key) == table + added;
  }

  // --- Joins ---------------------------------------------------------------------

  /**
   * Every combination of one value from each of four columns: the rows a
   * chain of four joins on one probe key produces.
   */
  function Combos<V(==,!new)>(a: seq<V>, b: seq<V>, c: seq<V>, d: seq<V>): (r: seq<(V, V, V, V)>)
    ensures forall w, x, y, z :: (w, x, y, z) in r <==> w in a && x in b && y in c && z in d
  {
    var q := Cross(Cross(Cross(a, b), c), d);
    var r := Project(q, (t: (((V, V), V), V)) => (t.0.0.0, t.0.0.1, t.0.1, t.1));
    forall w, x, y, z ensures (w, x, y, z) in r <==> w in a && x in b && y in c && z in d {
      if (w, x, y, z) in r {
        var i :| 0 <= i < |r| && r[i] == (w, x, y, z);
        assert q[i] in q && q[i] == (((w, x), y), z);
      }
      if w in a && x in b && y in c && z in d {
        assert (((w, x), y), z) in q;
      }
    }
    r
  }

  /** The four-way combination has the product of the column lengths as its length. */
  lemma CombosLength<V(!new)>(a: seq<V>, b: seq<V>, c: seq<V>, d: seq<V>)
    ensures |Combos(a, b, c, d)| == |a| * |b| * |c| * |d|
  {
    CrossLength(a, b);
    CrossLength(Cross(a, b), c);
    CrossLength(Cross(Cross(a, b), c), d);
  }

  /** One block of rows per row of `s`, in order (a join that fans each left row out). */
  function FlatMap<A, B>(s: seq<A>, f: A -> seq<B>): seq<B>
    decreases |s|
  {
    if |s| == 0 then [] else f(s[0]) + FlatMap(s[1..], f)
  }

  /** The sum of g over the rows of s. */
  function SumOf<A>(s: seq<A>, g: A -> nat): nat
    decreases |s|
  {
    if |s| == 0 then 0 else g(s[0]) + SumOf(s[1..], g)
  }

  /** The flattened table has as many rows as the blocks together. */
  lemma {:induction false} FlatMapLength<A, B>(s: seq<A>, f: A -> seq<B>, g: A -> nat)
    requires forall x :: x in s ==> |f(x)| == g(x)
    ensures |FlatMap(s, f)| == SumOf(s, g)
    decreases |s|
  {
    if |s| > 0 {
      assert s[0] in s;
      assert forall x :: x in s[1..] ==> x in s;
      FlatMapLength(s[1..], f, g);
    }
  }

  /** A row is in the flattened table exactly when it is in the block of some row. */
  lemma {:induction false} FlatMapMembers<A, B>(s: seq<A>, f: A -> seq<B>, y: B)
    ensures y in FlatMap(s, f) <==> exists x :: x in s && y in f(x)
    decreases |s|
  {
    if |s| > 0 {
      FlatMapMembers(s[1..], f, y);
      assert forall x :: x in s <==> x == s[0] || x in s[1..];
    }
  }

  /** FROM a JOIN b ON ka(a) = kb(b): every pair of rows that agree on the key. */
  function JoinPairs<A(==,!new), B(==,!new), K(==)>(a: seq<A>, b: seq<B>, ka: A -> K, kb: B -> K): (r: seq<(A, B)>)
    ensures forall x, y :: (x, y) in r <==> x in a && y in b && ka(x) == kb(y)
  {
    Filter(Cross(a, b), (t: (A, B)) => ka(t.0) == kb(t.1))
  }
}
