/** Rows of a table as a sequence (the row id is the index), and counting the rows a query matches. */
module Tables {

  datatype Option<+T> = None | Some(value: T)

  /** The value, or a default for none. */
  function Or<T>(o: Option<T>, otherwise: T): T
  {
    if o.Some? then o.value else otherwise
  }

  /** SELECT count(*) FROM rows WHERE p. */
  function Count<T>(rows: seq<T>, p: T -> bool): nat
  {
    if rows == [] then 0
    else Count(rows[..|rows| - 1], p) + (if p(rows[|rows| - 1]) then 1 else 0)
  }

  /** An UPDATE of one row changes a count by what that row stops or starts matching. */
  lemma {:induction false} CountUpdate<T>(rows: seq<T>, i: nat, row: T, p: T -> bool)
    requires i < |rows|
    ensures Count(rows[i := row], p) + (if p(rows[i]) then 1 else 0) == Count(rows, p) + (if p(row) then 1 else 0)
  {
    var n := |rows| - 1;
    if i == n {
      assert rows[i := row][..n] == rows[..n];
    } else {
      assert rows[i := row][..n] == rows[..n][i := row];
      CountUpdate(rows[..n], i, row, p);
    }
  }

  /** Rows that match p before all match q after: the count cannot drop. */
  lemma {:induction false} CountMonotone<T>(rows: seq<T>, rows': seq<T>, p: T -> bool, q: T -> bool)
    requires |rows| <= |rows'|
    requires forall i :: 0 <= i < |rows| && p(rows[i]) ==> q(rows'[i])
    ensures Count(rows, p) <= Count(rows', q)
    decreases |rows'|
  {
    if rows' == [] {
    } else if |rows| < |rows'| {
      CountMonotone(rows, rows'[..|rows'| - 1], p, q);
    } else {
      CountMonotone(rows[..|rows| - 1], rows'[..|rows'| - 1], p, q);
    }
  }

  /** Row-wise equivalent queries have the same count. */
  lemma CountSame<T>(rows: seq<T>, rows': seq<T>, p: T -> bool, q: T -> bool)
    requires |rows| == |rows'|
    requires forall i :: 0 <= i < |rows| ==> p(rows[i]) == q(rows'[i])
    ensures Count(rows, p) == Count(rows', q)
  {
    CountMonotone(rows, rows', p, q);
    CountMonotone(rows', rows, q, p);
  }

  /** A row that matches is counted. */
  lemma {:induction false} CountPositive<T>(rows: seq<T>, i: nat, p: T -> bool)
    requires i < |rows| && p(rows[i])
    ensures Count(rows, p) >= 1
  {
    if i < |rows| - 1 {
      CountPositive(rows[..|rows| - 1], i, p);
    }
  }

  /** A query that matches nothing counts nothing. */
  lemma {:induction false} CountNone<T>(rows: seq<T>, p: T -> bool)
    requires forall i :: 0 <= i < |rows| ==> !p(rows[i])
    ensures Count(rows, p) == 0
  {
    if rows != [] {
      CountNone(rows[..|rows| - 1], p);
    }
  }

  /** When the first rows do not match, at most the others are counted. */
  lemma {:induction false} CountTail<T>(rows: seq<T>, cut: nat, p: T -> bool)
    requires cut <= |rows| && forall i :: 0 <= i < cut ==> !p(rows[i])
    ensures Count(rows, p) <= |rows| - cut
  {
    if cut < |rows| {
      CountTail(rows[..|rows| - 1], cut, p);
    } else {
      CountNone(rows, p);
    }
  }

  lemma {:induction false} CountConcat<T>(a: seq<T>, b: seq<T>, p: T -> bool)
    ensures Count(a + b, p) == Count(a, p) + Count(b, p)
  {
    if b == [] {
      assert a + b == a;
    } else {
      assert (a + b)[..|a + b| - 1] == a + b[..|b| - 1];
      CountConcat(a, b[..|b| - 1], p);
    }
  }

  lemma AllButFirst<T>(rows: seq<T>, p: T -> bool)
    requires rows != [] && !p(rows[0]) && forall i :: 1 <= i < |rows| ==> p(rows[i])
    ensures Count(rows, p) == |rows| - 1
  {
    assert rows == rows[..1] + rows[1..];
    CountConcat(rows[..1], rows[1..], p);
    CountNone(rows[..1], p);
  }

  /** A query that no two rows match counts one at most. */
  lemma {:induction false} AtMostOnce<T>(rows: seq<T>, p: T -> bool)
    requires forall i, j :: 0 <= i < j < |rows| && p(rows[i]) ==> !p(rows[j])
    ensures Count(rows, p) <= 1
  {
    if rows != [] {
      var n := |rows| - 1;
      if p(rows[n]) {
        CountNone(rows[..n], p);
      } else {
        AtMostOnce(rows[..n], p);
      }
    }
  }
}
