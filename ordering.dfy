/** `ORDER BY key DESC` over the rows of a table: every row once, largest
    key first. Rows with equal keys may come in any order, as in SQL. */
module Ordering {

  predicate SortedDesc<T>(r: seq<T>, key: T -> int) {
    forall i, j :: 0 <= i < j < |r| ==> key(r[i]) >= key(r[j])
  }

  predicate Distinct<T(==)>(r: seq<T>) {
    forall i, j :: 0 <= i < j < |r| ==> r[i] != r[j]
  }

  predicate IsMax<T>(m: T, s: set<T>, key: T -> int) {
    m in s && forall y :: y in s ==> key(y) <= key(m)
  }

  lemma {:induction false} MaxExists<T>(s: set<T>, key: T -> int)
    requires s != {}
    ensures exists m :: IsMax(m, s, key)
    decreases |s|
  {
    var x :| x in s;
    if s != {x} {
      MaxExists(s - {x}, key);
      var m :| IsMax(m, s - {x}, key);
      if key(x) <= key(m) {
        assert IsMax(m, s, key);
      } else {
        assert IsMax(x, s, key);
      }
    } else {
      assert IsMax(x, s, key);
    }
  }

  /** The elements of `s`, ordered by `key`, largest first. */
  ghost function ByKeyDesc<T(!new)>(s: set<T>, key: T -> int): (r: seq<T>)
    ensures forall x :: x in r <==> x in s
    ensures |r| == |s|
    ensures Distinct(r)
    ensures SortedDesc(r, key)
    decreases |s|
  {
    if s == {} then []
    else
      MaxExists(s, key);
      var m :| IsMax(m, s, key);
      var rest := ByKeyDesc(s - {m}, key);
      assert forall i :: 0 <= i < |rest| ==> rest[i] in s - {m};
      [m] + rest
  }
}
