/** Sequence and map facts shared by the services: duplicate checks and "greatest by key". */
module Collections {

  /** No element occurs twice. */
  predicate NoDuplicates<T(==)>(s: seq<T>)
  {
    forall i, j | 0 <= i < j < |s| :: s[i] != s[j]
  }

  /** Java's `Stream.distinct()`: the first occurrence of every element, in encounter order. */
  function Distinct<T(==)>(s: seq<T>): (r: seq<T>)
    ensures forall x | x in r :: x in s
    ensures forall x | x in s :: x in r
    ensures NoDuplicates(r)
    ensures |r| <= |s|
  {
    if s == [] then []
    else
      var prefix := Distinct(s[..|s| - 1]);
      var last := s[|s| - 1];
      assert forall x | x in s :: x in s[..|s| - 1] || x == last;
      if last in prefix then prefix else prefix + [last]
  }

  /** `distinct().count() == size()` holds exactly when the list has no duplicates. */
  lemma {:induction false} DistinctCountIsSize<T>(s: seq<T>)
    ensures |Distinct(s)| == |s| <==> NoDuplicates(s)
  {
    if s != [] {
      var p := s[..|s| - 1];
      var last := s[|s| - 1];
      DistinctCountIsSize(p);
      assert s == p + [last];
      if NoDuplicates(s) {
        assert NoDuplicates(p) by {
          forall i, j | 0 <= i < j < |p| ensures p[i] != p[j] {
            assert p[i] == s[i] && p[j] == s[j];
          }
        }
        forall i | 0 <= i < |p| ensures p[i] != last {
          assert p[i] == s[i];
        }
        assert last !in Distinct(p);
      }
      if |Distinct(s)| == |s| {
        assert last !in Distinct(p);
        assert NoDuplicates(p);
        assert last !in p;
        forall i, j | 0 <= i < j < |s| ensures s[i] != s[j] {
          if j < |s| - 1 {
            assert s[i] == p[i] && s[j] == p[j];
          } else {
            assert s[i] == p[i];
          }
        }
      }
    }
  }

  /** The members of `ids` that `table` resolves. */
  function Resolved<K, V>(ids: seq<K>, table: map<K, V>): set<K>
  {
    set id | id in ids && id in table
  }

  /** For a list without duplicates, a lookup resolves as many keys as the list is long
      exactly when every key resolves. */
  lemma {:induction false} ResolvedCount<K, V>(ids: seq<K>, table: map<K, V>)
    requires NoDuplicates(ids)
    ensures |Resolved(ids, table)| <= |ids|
    ensures |Resolved(ids, table)| == |ids| <==> forall id | id in ids :: id in table
  {
    if ids != [] {
      var x, rest := ids[0], ids[1..];
      assert NoDuplicates(rest) by {
        forall i, j | 0 <= i < j < |rest| ensures rest[i] != rest[j] {
          assert rest[i] == ids[i + 1] && rest[j] == ids[j + 1];
        }
      }
      ResolvedCount(rest, table);
      forall i | 0 <= i < |rest| ensures rest[i] != x {
        assert rest[i] == ids[i + 1];
      }
      var r := Resolved(rest, table);
      assert ids == [x] + rest;
      if x in table {
        assert Resolved(ids, table) == r + {x};
        assert x !in r;
      } else {
        assert Resolved(ids, table) == r;
      }
    } else {
      assert Resolved(ids, table) == {};
    }
  }

  /** A non-empty finite map has a key whose value no other value exceeds. */
  lemma {:induction false} MaxKey<K>(m: map<K, int>) returns (k: K)
    requires |m| > 0
    ensures k in m && forall j | j in m :: m[j] <= m[k]
    decreases |m|
  {
    var x :| x in m;
    var rest := m - {x};
    assert m.Keys == rest.Keys + {x};
    if |rest| == 0 {
      assert rest.Keys == {};
      assert m.Keys == {x};
      k := x;
    } else {
      assert |rest| == |m| - 1;
      var b := MaxKey(rest);
      if m[x] <= m[b] {
        k := b;
      } else {
        k := x;
      }
      forall j | j in m ensures m[j] <= m[k] {
        if j != x { assert j in rest; }
      }
    }
  }
}
