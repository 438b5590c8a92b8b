// A counting multiset kept as a list of distinct values with their counts,
// in order of first insertion, and a thresholded weighted average over it.
module CountedVecs {
  import opened Wrappers

  /** A value and how often it was inserted. */
  datatype CountedValue<T> = CountedValue(count: nat, value: T) {
    /** `increment`. */
    function Increment(): CountedValue<T> {
      this.(count := count + 1)
    }
  }

  /** `CountedValue::new`: seen once. */
  function NewCountedValue<T>(value: T): CountedValue<T> {
    CountedValue(1, value)
  }

  /** `iter().position(...)`: the first entry holding the value. */
  function Position<T(==)>(data: seq<CountedValue<T>>, value: T): (r: Option<nat>)
    ensures r.Some? ==>
      && r.value < |data| && data[r.value].value == value
      && forall j :: 0 <= j < r.value ==> data[j].value != value
    ensures r.None? ==> forall j :: 0 <= j < |data| ==> data[j].value != value
  {
    if |data| == 0 then None
    else if data[0].value == value then Some(0)
    else match Position(data[1..], value)
      case None => None
      case Some(i) => Some(i + 1)
  }

  /** The sum of the counts. */
  function TotalCount<T>(data: seq<CountedValue<T>>): nat {
    if |data| == 0 then 0 else TotalCount(data[..|data| - 1]) + data[|data| - 1].count
  }

  lemma {:induction false} TotalCountIncrement<T>(data: seq<CountedValue<T>>, p: nat)
    requires p < |data|
    ensures TotalCount(data[p := data[p].Increment()]) == TotalCount(data) + 1
  {
    var n := |data| - 1;
    var updated := data[p := data[p].Increment()];
    assert updated[..n] == if p < n then data[..n][p := data[p].Increment()] else data[..n];
    if p < n {
      TotalCountIncrement(data[..n], p);
    }
  }

  lemma TotalCountAppend<T>(data: seq<CountedValue<T>>, c: CountedValue<T>)
    ensures TotalCount(data + [c]) == TotalCount(data) + c.count
  {
    assert (data + [c])[..|data|] == data;
  }

  /** No count exceeds the total. */
  lemma {:induction false} CountAtMostTotal<T>(data: seq<CountedValue<T>>, i: nat)
    requires i < |data|
    ensures data[i].count <= TotalCount(data)
  {
    var n := |data| - 1;
    if i < n {
      CountAtMostTotal(data[..n], i);
    }
  }

  /** Values are pairwise distinct, each entry counts exactly the inserts of
      its value, every inserted value has an entry, and the counts add up to
      the number of inserts. */
  ghost predicate Counts<T>(data: seq<CountedValue<T>>, inserted: multiset<T>) {
    && (forall i, j :: 0 <= i < j < |data| ==> data[i].value != data[j].value)
    && (forall i :: 0 <= i < |data| ==> 1 <= data[i].count == inserted[data[i].value])
    && (forall v :: v in inserted ==> exists i :: 0 <= i < |data| && data[i].value == v)
    && TotalCount(data) == |inserted|
  }

  /** The entries after `insert`. */
  function InsertInto<T(==)>(data: seq<CountedValue<T>>, value: T): seq<CountedValue<T>> {
    match Position(data, value)
    case Some(p) => data[p := data[p].Increment()]
    case None => data + [NewCountedValue(value)]
  }

  /** Inserting keeps the entries an exact count of the inserts. */
  lemma InsertKeepsCounts<T>(data: seq<CountedValue<T>>, inserted: multiset<T>, value: T)
    requires Counts(data, inserted)
    ensures Counts(InsertInto(data, value), inserted + multiset{value})
  {
    var after := InsertInto(data, value);
    var position := Position(data, value);
    match position {
      case Some(p) => TotalCountIncrement(data, p);
      case None => TotalCountAppend(data, NewCountedValue(value));
    }
    forall v | v in inserted + multiset{value}
      ensures exists i :: 0 <= i < |after| && after[i].value == v
    {
      if v != value {
        assert v in inserted;
        var i :| 0 <= i < |data| && data[i].value == v;
        assert after[i].value == v;
      } else {
        var i := if position.Some? then position.value else |data|;
        assert after[i].value == v;
      }
    }
  }

  class CountedVec<T(==)> {
    var data: seq<CountedValue<T>>
    /** Every value inserted so far, with multiplicity. */
    ghost var inserted: multiset<T>

    ghost predicate Valid()
      reads this
    {
      Counts(data, inserted)
    }

    /** `CountedVec::new`. */
    constructor ()
      ensures Valid() && data == [] && inserted == multiset{}
    {
      data := [];
      inserted := multiset{};
    }

    /** `is_empty`: no entry, which for a valid vector means nothing was
        inserted. */
    function IsEmpty(): (empty: bool)
      reads this
      ensures Valid() ==> (empty <==> |inserted| == 0)
    {
      assert Valid() && |data| > 0 ==> |inserted| > 0 by {
        if Valid() && |data| > 0 {
          assert data[0].value in inserted;
        }
      }
      |data| == 0
    }

    /** `insert`: a value already present has its count incremented in
        place; a new value is appended with count 1. */
    method Insert(value: T)
      requires Valid()
      modifies this
      ensures Valid() && inserted == old(inserted) + multiset{value}
      ensures data == InsertInto(old(data), value)
    {
      InsertKeepsCounts(data, inserted, value);
      var position := Position(data, value);
      inserted := inserted + multiset{value};
      match position {
        case Some(p) => data := data[p := data[p].Increment()];
        case None => data := data + [NewCountedValue(value)];
      }
    }

    /** `weighted_average`, with `toReal` standing for `Into<f64>`. */
    method WeightedAverage(threshold: real, toReal: T -> real) returns (average: real)
      ensures average == WeightedAverageOf(data, threshold, toReal)
    {
      var entries := data;
      var totalCount: nat := 0;
      for i := 0 to |entries|
        invariant totalCount == TotalCount(entries[..i])
      {
        assert entries[..i + 1][..i] == entries[..i];
        totalCount := totalCount + entries[i].count;
      }
      assert entries[..|entries|] == entries;
      var totalValue := 0.0;
      var totalThresholdCount: nat := 0;
      for i := 0 to |entries|
        invariant totalValue == QualifyingValue(entries[..i], totalCount, threshold, toReal)
        invariant totalThresholdCount == QualifyingCount(entries[..i], totalCount, threshold)
      {
        QualifyingStep(entries, i, totalCount, threshold, toReal);
        var entry := entries[i];
        if entry.count as real > totalCount as real * threshold {
          totalValue := totalValue + Weighted(entry, toReal);
          totalThresholdCount := totalThresholdCount + entry.count;
        }
      }
      assert entries[..|entries|] == entries;
      average := if totalThresholdCount == 0 then 0.0 else totalValue / totalThresholdCount as real;
    }
  }

  /** An entry's count times its value. */
  function Weighted<T>(c: CountedValue<T>, toReal: T -> real): real {
    c.count as real * toReal(c.value)
  }

  /** An entry qualifies when its count is strictly above `threshold` of
      the total. */
  predicate Qualifies<T>(c: CountedValue<T>, total: nat, threshold: real) {
    c.count as real > total as real * threshold
  }

  function QualifyingCount<T>(data: seq<CountedValue<T>>, total: nat, threshold: real): nat {
    if |data| == 0 then 0
    else
      var last := data[|data| - 1];
      QualifyingCount(data[..|data| - 1], total, threshold) + (if Qualifies(last, total, threshold) then last.count else 0)
  }

  function QualifyingValue<T>(data: seq<CountedValue<T>>, total: nat, threshold: real, toReal: T -> real): real {
    if |data| == 0 then 0.0
    else
      var last := data[|data| - 1];
      QualifyingValue(data[..|data| - 1], total, threshold, toReal)
        + (if Qualifies(last, total, threshold) then Weighted(last, toReal) else 0.0)
  }

  lemma QualifyingStep<T>(data: seq<CountedValue<T>>, i: nat, total: nat, threshold: real, toReal: T -> real)
    requires i < |data|
    ensures QualifyingCount(data[..i + 1], total, threshold)
      == QualifyingCount(data[..i], total, threshold) + (if Qualifies(data[i], total, threshold) then data[i].count else 0)
    ensures QualifyingValue(data[..i + 1], total, threshold, toReal)
      == QualifyingValue(data[..i], total, threshold, toReal)
         + (if Qualifies(data[i], total, threshold) then Weighted(data[i], toReal) else 0.0)
  {
    assert data[..i + 1][..i] == data[..i];
  }

  function WeightedAverageOf<T>(data: seq<CountedValue<T>>, threshold: real, toReal: T -> real): real {
    var total := TotalCount(data);
    var count := QualifyingCount(data, total, threshold);
    if count == 0 then 0.0 else QualifyingValue(data, total, threshold, toReal) / count as real
  }

  /** The sum of count times value over all entries. */
  function WeightedSum<T>(data: seq<CountedValue<T>>, toReal: T -> real): real {
    if |data| == 0 then 0.0
    else WeightedSum(data[..|data| - 1], toReal) + Weighted(data[|data| - 1], toReal)
  }

  /** When every entry qualifies, the qualifying sums are the sums over all
      entries, so the weighted average is the count-weighted mean. */
  lemma {:induction false} AllQualifying<T>(data: seq<CountedValue<T>>, total: nat, threshold: real, toReal: T -> real)
    requires forall i :: 0 <= i < |data| ==> Qualifies(data[i], total, threshold)
    ensures QualifyingCount(data, total, threshold) == TotalCount(data)
    ensures QualifyingValue(data, total, threshold, toReal) == WeightedSum(data, toReal)
  {
    if |data| > 0 {
      var n := |data| - 1;
      assert forall i :: 0 <= i < n ==> data[..n][i] == data[i];
      AllQualifying(data[..n], total, threshold, toReal);
    }
  }

  /** The weighted average of entries that all qualify is the count-weighted
      mean of the values. */
  lemma WeightedAverageOfAll<T>(data: seq<CountedValue<T>>, threshold: real, toReal: T -> real)
    requires |data| > 0 && forall i :: 0 <= i < |data| ==> 1 <= data[i].count
    requires forall i :: 0 <= i < |data| ==> Qualifies(data[i], TotalCount(data), threshold)
    ensures WeightedAverageOf(data, threshold, toReal) == WeightedSum(data, toReal) / TotalCount(data) as real
  {
    AllQualifying(data, TotalCount(data), threshold, toReal);
    CountAtMostTotal(data, 0);
  }

  /** No entry is counted when no entry qualifies, and the average is then
      0.0. */
  lemma {:induction false} NoneQualifying<T>(data: seq<CountedValue<T>>, total: nat, threshold: real, toReal: T -> real)
    requires forall i :: 0 <= i < |data| ==> !Qualifies(data[i], total, threshold)
    ensures QualifyingCount(data, total, threshold) == 0
  {
    if |data| > 0 {
      var n := |data| - 1;
      assert forall i :: 0 <= i < n ==> data[..n][i] == data[i];
      NoneQualifying(data[..n], total, threshold, toReal);
    }
  }

  /** A threshold of 1 or more excludes every entry (no count exceeds the
      total), so the weighted average is 0.0. */
  lemma ThresholdAtLeastOne<T>(data: seq<CountedValue<T>>, threshold: real, toReal: T -> real)
    requires threshold >= 1.0
    ensures WeightedAverageOf(data, threshold, toReal) == 0.0
  {
    var total := TotalCount(data);
    forall i | 0 <= i < |data|
      ensures !Qualifies(data[i], total, threshold)
    {
      CountAtMostTotal(data, i);
      assert total as real * threshold >= total as real;
    }
    NoneQualifying(data, total, threshold, toReal);
  }
}
