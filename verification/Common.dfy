/** Small types and the weighted sum that every module of the model shares. */
module Common {
  datatype Option<+T> = None | Some(value: T)

  /** The total weight of a sequence: SQL's SUM over a table's rows. */
  function Sum<T>(s: seq<T>, weight: T -> real): real {
    if s == [] then 0.0 else Sum(s[..|s| - 1], weight) + weight(s[|s| - 1])
  }

  lemma {:induction false} SumAppend<T>(s: seq<T>, t: seq<T>, weight: T -> real)
    ensures Sum(s + t, weight) == Sum(s, weight) + Sum(t, weight)
  {
    if t == [] {
      assert s + t == s;
    } else {
      var last := |t| - 1;
      assert (s + t)[..|s + t| - 1] == s + t[..last];
      SumAppend(s, t[..last], weight);
    }
  }

  lemma {:induction false} SumMonotone<T>(s: seq<T>, v: T -> real, w: T -> real)
    requires forall i | 0 <= i < |s| :: v(s[i]) <= w(s[i])
    ensures Sum(s, v) <= Sum(s, w)
  {
    if s != [] {
      SumMonotone(s[..|s| - 1], v, w);
    }
  }

  /** Replacing one row moves the total by the change of that row's weight. */
  lemma {:induction false} SumUpdate<T>(s: seq<T>, i: nat, row: T, weight: T -> real)
    requires i < |s|
    ensures Sum(s[i := row], weight) == Sum(s, weight) - weight(s[i]) + weight(row)
  {
    var last := |s| - 1;
    if i == last {
      assert s[i := row][..last] == s[..last];
    } else {
      assert s[i := row][..last] == s[..last][i := row];
      SumUpdate(s[..last], i, row, weight);
    }
  }
}
