/**
 * Python's ordering of strings and the `sort_values` step that puts rows in
 * ascending order of a text column (dates written as 'YYYY-MM-DD').
 */
module Order {

  /** Python's `a <= b` on `str`: lexicographic order of code points. */
  predicate StrLe(a: string, b: string)
    decreases |a|
  {
    |a| == 0 || (|b| > 0 && (a[0] < b[0] || (a[0] == b[0] && StrLe(a[1..], b[1..]))))
  }

  lemma {:induction false} StrLeRefl(a: string)
    ensures StrLe(a, a)
    decreases |a|
  {
    if |a| > 0 { StrLeRefl(a[1..]); }
  }

  lemma {:induction false} StrLeTotal(a: string, b: string)
    ensures StrLe(a, b) || StrLe(b, a)
    decreases |a|
  {
    if |a| > 0 && |b| > 0 && a[0] == b[0] { StrLeTotal(a[1..], b[1..]); }
  }

  lemma {:induction false} StrLeTrans(a: string, b: string, c: string)
    requires StrLe(a, b) && StrLe(b, c)
    ensures StrLe(a, c)
    decreases |a|
  {
    if |a| > 0 && a[0] == b[0] && b[0] == c[0] { StrLeTrans(a[1..], b[1..], c[1..]); }
  }

  lemma {:induction false} StrLeAntisym(a: string, b: string)
    requires StrLe(a, b) && StrLe(b, a)
    ensures a == b
    decreases |a|
  {
    if |a| > 0 {
      StrLeAntisym(a[1..], b[1..]);
      assert a == [a[0]] + a[1..] && b == [b[0]] + b[1..];
    }
  }

  /** Every row's key is at most every later row's key. */
  ghost predicate SortedBy<T>(s: seq<T>, key: T -> string) {
    forall i, j | 0 <= i < j < |s| :: StrLe(key(s[i]), key(s[j]))
  }

  /** `x` placed before the first row whose key is not smaller. */
  function Insert<T>(x: T, s: seq<T>, key: T -> string): seq<T>
  {
    if |s| == 0 then [x]
    else if StrLe(key(x), key(s[0])) then [x] + s
    else [s[0]] + Insert(x, s[1..], key)
  }

  lemma {:induction false} InsertSorted<T>(x: T, s: seq<T>, key: T -> string)
    requires SortedBy(s, key)
    ensures SortedBy(Insert(x, s, key), key)
    ensures multiset(Insert(x, s, key)) == multiset(s) + multiset{x}
    ensures |Insert(x, s, key)| == |s| + 1
    decreases |s|
  {
    if |s| == 0 {
    } else if StrLe(key(x), key(s[0])) {
      forall j | 0 <= j < |s| ensures StrLe(key(x), key(s[j])) {
        if j > 0 { StrLeTrans(key(x), key(s[0]), key(s[j])); }
      }
      ConsSorted(x, s, key);
      assert s == [s[0]] + s[1..];
    } else {
      StrLeTotal(key(x), key(s[0]));
      var t := s[1..];
      assert SortedBy(t, key) by {
        forall i, j | 0 <= i < j < |t| ensures StrLe(key(t[i]), key(t[j])) {
          assert t[i] == s[i + 1] && t[j] == s[j + 1];
        }
      }
      InsertSorted(x, t, key);
      var it := Insert(x, t, key);
      HeadBelowRest(x, s, it, key);
      ConsSorted(s[0], it, key);
      assert s == [s[0]] + t;
    }
  }

  /** A row keyed at most every row of a sorted list can go in front of it. */
  lemma ConsSorted<T>(h: T, t: seq<T>, key: T -> string)
    requires SortedBy(t, key)
    requires forall j | 0 <= j < |t| :: StrLe(key(h), key(t[j]))
    ensures SortedBy([h] + t, key)
  {
    var r := [h] + t;
    forall i, j | 0 <= i < j < |r| ensures StrLe(key(r[i]), key(r[j])) {
      assert r[j] == t[j - 1];
      if i > 0 { assert r[i] == t[i - 1]; }
    }
  }

  /** Every row of `x` merged into the tail of a sorted list keys at least the list's head, when `x` does. */
  lemma HeadBelowRest<T>(x: T, s: seq<T>, it: seq<T>, key: T -> string)
    requires |s| > 0 && SortedBy(s, key) && StrLe(key(s[0]), key(x))
    requires multiset(it) == multiset(s[1..]) + multiset{x}
    ensures forall j | 0 <= j < |it| :: StrLe(key(s[0]), key(it[j]))
  {
    forall j | 0 <= j < |it| ensures StrLe(key(s[0]), key(it[j])) {
      var y := it[j];
      assert y in multiset(it);
      if y != x {
        assert y in multiset(s[1..]);
        var k :| 0 <= k < |s[1..]| && s[1..][k] == y;
        assert s[k + 1] == y;
      }
    }
  }

  /** `df.sort_values(column)`: the rows in ascending order of their key. */
  function SortBy<T>(s: seq<T>, key: T -> string): seq<T>
    decreases |s|
  {
    if |s| == 0 then [] else Insert(s[0], SortBy(s[1..], key), key)
  }

  /** The sorted rows are in ascending key order and are the same rows. */
  /** Re-sorting rows that are already in key order changes nothing: the sort is stable. */
  lemma {:induction false} SortSortedUnchanged<T>(s: seq<T>, key: T -> string)
    requires SortedBy(s, key)
    ensures SortBy(s, key) == s
    decreases |s|
  {
    if |s| > 0 {
      assert SortedBy(s[1..], key) by {
        forall i, j | 0 <= i < j < |s[1..]| ensures StrLe(key(s[1..][i]), key(s[1..][j])) {
          assert s[1..][i] == s[i + 1] && s[1..][j] == s[j + 1];
        }
      }
      SortSortedUnchanged(s[1..], key);
      if |s| > 1 {
        assert StrLe(key(s[0]), key(s[1..][0]));
      }
      assert [s[0]] + s[1..] == s;
    }
  }

  lemma {:induction false} SortByCorrect<T>(s: seq<T>, key: T -> string)
    ensures SortedBy(SortBy(s, key), key)
    ensures multiset(SortBy(s, key)) == multiset(s)
    ensures |SortBy(s, key)| == |s|
    decreases |s|
  {
    if |s| > 0 {
      SortByCorrect(s[1..], key);
      InsertSorted(s[0], SortBy(s[1..], key), key);
      assert s == [s[0]] + s[1..];
    }
  }

  // ---------------------------------------------------------------------------
  // Group keys: the distinct values of a column in ascending order
  // ---------------------------------------------------------------------------

  /** `lt` is a strict total order. */
  ghost predicate StrictTotal<K(!new)>(lt: (K, K) -> bool) {
    && (forall a :: !lt(a, a))
    && (forall a, b, c :: lt(a, b) && lt(b, c) ==> lt(a, c))
    && (forall a, b :: a == b || lt(a, b) || lt(b, a))
  }

  /** Every element is strictly below every later one: ascending and without repeats. */
  ghost predicate Ascending<K>(s: seq<K>, lt: (K, K) -> bool) {
    forall i, j | 0 <= i < j < |s| :: lt(s[i], s[j])
  }

  /** Python's `a < b` on `str`. */
  predicate StrLt(a: string, b: string) {
    StrLe(a, b) && a != b
  }

  predicate RealLt(a: real, b: real) {
    a < b
  }

  lemma StrLtStrictTotal()
    ensures StrictTotal(StrLt)
  {
    forall a: string, b: string, c: string | StrLt(a, b) && StrLt(b, c)
      ensures StrLt(a, c)
    {
      StrLeTrans(a, b, c);
      if a == c { StrLeAntisym(a, b); }
    }
    forall a: string, b: string
      ensures a == b || StrLt(a, b) || StrLt(b, a)
    {
      StrLeTotal(a, b);
    }
  }

  lemma RealLtStrictTotal()
    ensures StrictTotal(RealLt)
  {
  }

  /** `x` added to an ascending list of keys, unless it is already there. */
  function InsertKey<K(==)>(s: seq<K>, x: K, lt: (K, K) -> bool): seq<K>
    decreases |s|
  {
    if |s| == 0 then [x]
    else if s[0] == x then s
    else if lt(x, s[0]) then [x] + s
    else [s[0]] + InsertKey(s[1..], x, lt)
  }

  lemma {:induction false} InsertKeyFacts<K(!new)>(s: seq<K>, x: K, lt: (K, K) -> bool)
    requires StrictTotal(lt) && Ascending(s, lt)
    ensures Ascending(InsertKey(s, x, lt), lt)
    ensures forall y :: y in InsertKey(s, x, lt) <==> y in s || y == x
    decreases |s|
  {
    if |s| > 0 && s[0] != x && !lt(x, s[0]) {
      var rest := InsertKey(s[1..], x, lt);
      InsertKeyFacts(s[1..], x, lt);
      assert lt(s[0], x);
      forall y | y in rest
        ensures lt(s[0], y)
      {
        if y != x {
          var k :| 1 <= k < |s| && s[k] == y;
        }
      }
      assert s == [s[0]] + s[1..];
    }
  }

  /** The distinct keys of the rows in ascending order, as `groupby` visits its groups. */
  function Keys<T, K(==)>(rows: seq<T>, key: T -> K, lt: (K, K) -> bool): seq<K>
    decreases |rows|
  {
    if |rows| == 0 then [] else InsertKey(Keys(rows[..|rows| - 1], key, lt), key(rows[|rows| - 1]), lt)
  }

  /** The keys are ascending, and a value is a key exactly when some row has it. */
  lemma {:induction false} KeysFacts<T, K(!new)>(rows: seq<T>, key: T -> K, lt: (K, K) -> bool)
    requires StrictTotal(lt)
    ensures Ascending(Keys(rows, key, lt), lt)
    ensures forall y :: y in Keys(rows, key, lt) <==> exists i | 0 <= i < |rows| :: key(rows[i]) == y
    decreases |rows|
  {
    if |rows| > 0 {
      var init := rows[..|rows| - 1];
      KeysFacts(init, key, lt);
      InsertKeyFacts(Keys(init, key, lt), key(rows[|rows| - 1]), lt);
      forall y
        ensures y in Keys(rows, key, lt) <==> exists i | 0 <= i < |rows| :: key(rows[i]) == y
      {
        if exists i | 0 <= i < |rows| :: key(rows[i]) == y {
          var i :| 0 <= i < |rows| && key(rows[i]) == y;
          if i < |rows| - 1 { assert key(init[i]) == y; }
        }
        if y in Keys(init, key, lt) {
          var i :| 0 <= i < |init| && key(init[i]) == y;
          assert key(rows[i]) == y;
        }
      }
    }
  }
}
