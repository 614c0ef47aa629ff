/** The time-series lookup of js_lib/vis.js (`datetimeSearch`). */
module TimeSeries {

  /** One `{epoch, value}` sample; `epoch` is in unix seconds. */
  datatype Sample<V> = Sample(epoch: int, value: V)

  /** What a lookup gives: the stored value, or the sentinel `'NA'`. */
  datatype Lookup<V> = NA | Found(value: V)

  /** Sorted strictly ascending by epoch: no two samples share an epoch. */
  predicate StrictlySorted<V>(s: seq<Sample<V>>) {
    forall i, j :: 0 <= i < j < |s| ==> s[i].epoch < s[j].epoch
  }

  /** Sample `i` is stamped exactly at `v` milliseconds. */
  predicate StampedAt<V>(s: seq<Sample<V>>, i: int, v: int) {
    0 <= i < |s| && s[i].epoch * 1000 == v
  }

  /** Reference definition: the value of the first sample stamped at `v` milliseconds, else NA. */
  function ValueAt<V>(s: seq<Sample<V>>, v: int): Lookup<V> {
    if |s| == 0 then NA
    else if s[0].epoch * 1000 == v then Found(s[0].value)
    else ValueAt(s[1..], v)
  }

  /** ValueAt finds a value exactly when some sample is stamped at `v`, and that value belongs to such a sample. */
  lemma {:induction false} ValueAtIsMatch<V>(s: seq<Sample<V>>, v: int)
    ensures ValueAt(s, v).NA? <==> forall i :: 0 <= i < |s| ==> !StampedAt(s, i, v)
    ensures ValueAt(s, v).Found? ==>
              exists i :: StampedAt(s, i, v) && s[i].value == ValueAt(s, v).value
  {
    if |s| > 0 && s[0].epoch * 1000 != v {
      ValueAtIsMatch(s[1..], v);
      if ValueAt(s, v).Found? {
        var k :| StampedAt(s[1..], k, v) && s[1..][k].value == ValueAt(s, v).value;
        assert StampedAt(s, k + 1, v);
      }
      forall i | 0 <= i < |s| && StampedAt(s, i, v) ensures ValueAt(s, v).Found? {
        assert StampedAt(s[1..], i - 1, v);
      }
    } else if |s| > 0 {
      assert StampedAt(s, 0, v);
    }
  }

  /** On a strictly sorted series the sample stamped at `v` is unique, so ValueAt returns its value. */
  lemma {:induction false} ValueAtSorted<V>(s: seq<Sample<V>>, i: int, v: int)
    requires StrictlySorted(s) && StampedAt(s, i, v)
    ensures ValueAt(s, v) == Found(s[i].value)
  {
    if i > 0 {
      assert s[0].epoch < s[i].epoch;
      ValueAtSorted(s[1..], i - 1, v);
    }
  }

  /**
   * `r` is an acceptable answer of a lookup of `v` in `s`: a found value belongs to a sample
   * stamped at `v`, and on a strictly sorted series `r` is exactly the reference value.
   */
  ghost predicate Answers<V>(s: seq<Sample<V>>, v: int, r: Lookup<V>) {
    && (r.Found? ==> exists i :: StampedAt(s, i, v) && s[i].value == r.value)
    && (StrictlySorted(s) ==> r == ValueAt(s, v))
  }

  /**
   * Binary search for the sample stamped exactly at `v` milliseconds (vis.js `datetimeSearch`).
   * Whatever the order of `arr`, a found value belongs to a sample stamped at `v`; on a strictly
   * sorted series the search is exact: it finds the value whenever one exists.
   */
  method DatetimeSearch<V>(arr: seq<Sample<V>>, v: int) returns (r: Lookup<V>)
    ensures Answers(arr, v, r)
    ensures |arr| == 0 ==> r == NA
  {
    var low, high := 0, |arr|;
    while low < high
      invariant 0 <= low <= high <= |arr|
      invariant StrictlySorted(arr) ==>
                  forall i :: 0 <= i < |arr| && StampedAt(arr, i, v) ==> low <= i < high
      decreases high - low
    {
      var mid := (low + high) / 2;
      if arr[mid].epoch * 1000 == v {
        assert StampedAt(arr, mid, v);
        if StrictlySorted(arr) {
          ValueAtSorted(arr, mid, v);
        }
        return Found(arr[mid].value);
      }
      if arr[mid].epoch * 1000 < v {
        low := mid + 1;
      } else {
        high := mid;
      }
    }
    ValueAtIsMatch(arr, v);
    return NA;
  }
}
