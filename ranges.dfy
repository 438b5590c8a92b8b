// Clustering of values into ranges: each value joins the first range whose
// running average it lies close enough to, or opens a range of its own.
module Ranges {
  import opened Wrappers
  import opened RealArithmetic

  /** The sum of the values, added front to back. */
  function SumOf(values: seq<real>): real {
    if |values| == 0 then 0.0 else SumOf(values[..|values| - 1]) + values[|values| - 1]
  }

  /** A sum of values between lo and hi lies between n * lo and n * hi. */
  lemma {:induction false} SumOfBounds(values: seq<real>, lo: real, hi: real)
    requires forall i :: 0 <= i < |values| ==> lo <= values[i] <= hi
    ensures |values| as real * lo <= SumOf(values) <= |values| as real * hi
  {
    if |values| > 0 {
      var init := values[..|values| - 1];
      SumOfBounds(init, lo, hi);
      assert (|init| + 1) as real * lo == |init| as real * lo + lo;
      assert (|init| + 1) as real * hi == |init| as real * hi + hi;
    }
  }

  /** The mean of a non-empty list of values. */
  function Mean(values: seq<real>): real
    requires |values| > 0
  {
    SumOf(values) / |values| as real
  }

  /** The mean times the count is the sum, and the mean of bounded values
      lies between their bounds. */
  lemma MeanFacts(values: seq<real>, min: real, max: real)
    requires |values| > 0
    ensures Mean(values) * |values| as real == SumOf(values)
    ensures Bounded(values, min, max) ==> min <= Mean(values) <= max
  {
    QuotientTimesDivisor(SumOf(values), |values| as real);
    if Bounded(values, min, max) {
      SumOfBounds(values, min, max);
      MeanBetween(SumOf(values), |values| as real, min, max);
    }
  }

  /** Whether a range holding `values` takes `value` in: an empty range
      takes anything, a non-empty one what lies within `distance` of its
      average, ends included. */
  predicate Accepts(values: seq<real>, distance: real, value: real) {
    |values| == 0 || (Mean(values) - distance <= value <= Mean(values) + distance)
  }

  /** Once a value is held, min and max are held values that bound all of
      them. */
  ghost predicate Bounded(values: seq<real>, min: real, max: real) {
    |values| > 0 ==>
      && (exists i :: 0 <= i < |values| && values[i] == min)
      && (exists i :: 0 <= i < |values| && values[i] == max)
      && forall i :: 0 <= i < |values| ==> min <= values[i] <= max
  }

  class CountedRange {
    var allowedDistanceToAverage: real
    var max: real
    var min: real
    var values: seq<real>

    ghost predicate Valid()
      reads this
    {
      Bounded(values, min, max)
    }

    /** `CountedRange::new`. */
    constructor (allowedDistanceToAverage: real)
      ensures Valid()
      ensures this.allowedDistanceToAverage == allowedDistanceToAverage
      ensures max == 0.0 && min == 0.0 && values == []
    {
      this.allowedDistanceToAverage := allowedDistanceToAverage;
      max := 0.0;
      min := 0.0;
      values := [];
    }

    /** `average`; the source divides by zero on an empty range. */
    function Average(): (average: real)
      reads this
      requires |values| > 0
      ensures average * |values| as real == SumOf(values)
      ensures Valid() ==> min <= average <= max
    {
      MeanFacts(values, min, max);
      Mean(values)
    }

    /** `len`. */
    function Len(): (n: nat)
      reads this
      ensures n == |values|
    {
      |values|
    }

    /** `insert`: whether the value was taken in. */
    method Insert(value: real) returns (accepted: bool)
      requires Valid()
      modifies this
      ensures Valid()
      ensures accepted <==> Accepts(old(values), allowedDistanceToAverage, value)
      ensures allowedDistanceToAverage == old(allowedDistanceToAverage)
      ensures accepted ==> values == old(values) + [value]
      ensures accepted && |old(values)| == 0 ==> min == value && max == value
      ensures !accepted ==> values == old(values) && min == old(min) && max == old(max)
    {
      if |values| == 0 {
        max := value;
        min := value;
      } else {
        var currentAverage := Average();
        if value > currentAverage + allowedDistanceToAverage || value < currentAverage - allowedDistanceToAverage {
          return false;
        }
        max := if max < value then value else max;
        min := if value < min then value else min;
      }
      ghost var previous := values;
      values := values + [value];
      accepted := true;
      assert values[|previous|] == value;
      assert forall i :: 0 <= i < |previous| ==> values[i] == previous[i];
      if |previous| > 0 {
        ghost var a :| 0 <= a < |previous| && previous[a] == old(min);
        ghost var b :| 0 <= b < |previous| && previous[b] == old(max);
        assert values[a] == old(min) && values[b] == old(max);
      }
    }
  }

  /** The number of values held by all ranges. */
  function TotalLen(contents: seq<seq<real>>): nat {
    if |contents| == 0 then 0 else TotalLen(contents[..|contents| - 1]) + |contents[|contents| - 1]|
  }

  /** The first range that accepts the value. */
  function FirstAccepting(contents: seq<seq<real>>, distance: real, value: real): (r: Option<nat>)
    ensures r.Some? ==>
      && r.value < |contents| && Accepts(contents[r.value], distance, value)
      && forall j :: 0 <= j < r.value ==> !Accepts(contents[j], distance, value)
    ensures r.None? ==> forall j :: 0 <= j < |contents| ==> !Accepts(contents[j], distance, value)
  {
    if |contents| == 0 then None
    else if Accepts(contents[0], distance, value) then Some(0)
    else match FirstAccepting(contents[1..], distance, value)
      case None => None
      case Some(i) => Some(i + 1)
  }

  /** Extending a prefix that no range accepts by one range. */
  lemma FirstAcceptingStep(contents: seq<seq<real>>, distance: real, value: real, i: nat)
    requires i < |contents| && FirstAccepting(contents[..i], distance, value).None?
    ensures !Accepts(contents[i], distance, value) ==> FirstAccepting(contents[..i + 1], distance, value).None?
    ensures Accepts(contents[i], distance, value) ==> FirstAccepting(contents, distance, value) == Some(i)
  {
    assert forall j :: 0 <= j < i ==> contents[..i][j] == contents[j];
    assert forall j :: 0 <= j <= i ==> contents[..i + 1][j] == contents[j];
  }

  /** The ranges' values after `Ranges::insert`. */
  function InsertInto(contents: seq<seq<real>>, distance: real, value: real): seq<seq<real>> {
    match FirstAccepting(contents, distance, value)
    case Some(i) => contents[i := contents[i] + [value]]
    case None => contents + [[value]]
  }

  lemma {:induction false} TotalLenAppend(contents: seq<seq<real>>, i: nat, value: real)
    requires i < |contents|
    ensures TotalLen(contents[i := contents[i] + [value]]) == TotalLen(contents) + 1
  {
    var n := |contents| - 1;
    var updated := contents[i := contents[i] + [value]];
    assert updated[..n] == if i < n then contents[..n][i := contents[i] + [value]] else contents[..n];
    if i < n {
      TotalLenAppend(contents[..n], i, value);
    }
  }

  /** Inserting adds exactly one value in total and never leaves an empty
      range behind. */
  lemma InsertIntoCounts(contents: seq<seq<real>>, distance: real, value: real)
    ensures TotalLen(InsertInto(contents, distance, value)) == TotalLen(contents) + 1
    ensures (forall i :: 0 <= i < |contents| ==> |contents[i]| > 0) ==>
      forall i :: 0 <= i < |InsertInto(contents, distance, value)| ==> |InsertInto(contents, distance, value)[i]| > 0
  {
    match FirstAccepting(contents, distance, value)
    case Some(i) => TotalLenAppend(contents, i, value);
    case None => assert (contents + [[value]])[..|contents|] == contents;
  }

  /** The values held by a list of ranges. */
  ghost function ValuesOf(rs: seq<CountedRange>): (c: seq<seq<real>>)
    reads rs
    ensures |c| == |rs| && forall i :: 0 <= i < |rs| ==> c[i] == rs[i].values
  {
    if |rs| == 0 then [] else ValuesOf(rs[..|rs| - 1]) + [rs[|rs| - 1].values]
  }

  /** The first two statements of `add_new_range`: a range holding only the
      value. */
  method NewRange(allowedDistanceToAverage: real, value: real) returns (r: CountedRange)
    ensures fresh(r) && r.Valid() && r.values == [value]
    ensures r.allowedDistanceToAverage == allowedDistanceToAverage
  {
    r := new CountedRange(allowedDistanceToAverage);
    var accepted := r.Insert(value);
  }

  lemma ValuesOfAppend(rs: seq<CountedRange>, r: CountedRange)
    ensures ValuesOf(rs + [r]) == ValuesOf(rs) + [r.values]
  {
    assert (rs + [r])[..|rs|] == rs;
  }

  /** Distinct ranges, each consistent, non-empty and with distance `d`. */
  ghost predicate AllValid(rs: seq<CountedRange>, d: real)
    reads rs
  {
    && (forall i, j :: 0 <= i < j < |rs| ==> rs[i] != rs[j])
    && forall i :: 0 <= i < |rs| ==>
         && rs[i].Valid() && |rs[i].values| > 0
         && rs[i].allowedDistanceToAverage == d
  }

  /** Appending a further valid range keeps the list valid. */
  lemma AllValidAppend(rs: seq<CountedRange>, r: CountedRange, d: real)
    requires AllValid(rs, d) && r !in rs
    requires r.Valid() && |r.values| > 0 && r.allowedDistanceToAverage == d
    ensures AllValid(rs + [r], d)
    ensures ValuesOf(rs + [r]) == ValuesOf(rs) + [r.values]
  {
    ValuesOfAppend(rs, r);
  }

  class Ranges {
    var allowedDistanceToAverage: real
    var totalElementCount: nat
    var data: seq<CountedRange>

    ghost function Contents(): seq<seq<real>>
      reads this, data
    {
      ValuesOf(data)
    }

    /** The ranges are distinct objects, each consistent, non-empty and
        sharing the container's distance. */
    ghost predicate RangesValid()
      reads this, data
    {
      AllValid(data, allowedDistanceToAverage)
    }

    /** ... and the element count is the number of values held. */
    ghost predicate Valid()
      reads this, data
    {
      RangesValid() && totalElementCount == TotalLen(Contents())
    }

    /** `Ranges::new`. */
    constructor (allowedDistanceToAverage: real)
      ensures Valid() && Contents() == []
      ensures this.allowedDistanceToAverage == allowedDistanceToAverage && totalElementCount == 0
    {
      this.allowedDistanceToAverage := allowedDistanceToAverage;
      totalElementCount := 0;
      data := [];
    }

    /** `is_empty`: no range, which for a valid container means nothing was
        inserted. */
    function IsEmpty(): (empty: bool)
      reads this, data
      ensures Valid() ==> (empty <==> totalElementCount == 0)
    {
      assert Valid() && |data| > 0 ==> TotalLen(Contents()) > 0 by {
        if Valid() && |data| > 0 {
          TotalLenPositive(Contents());
        }
      }
      |data| == 0
    }

    /** `add_new_range`: a new range holding only the value, at the end. */
    method AddNewRange(value: real)
      requires RangesValid()
      modifies this
      ensures RangesValid()
      ensures |data| == |old(data)| + 1 && data[..|old(data)|] == old(data) && fresh(data[|old(data)|])
      ensures Contents() == old(Contents()) + [[value]]
      ensures allowedDistanceToAverage == old(allowedDistanceToAverage)
      ensures totalElementCount == old(totalElementCount)
    {
      ghost var before := Contents();
      var newRange := NewRange(allowedDistanceToAverage, value);
      assert AllValid(data, allowedDistanceToAverage) && ValuesOf(data) == before;
      AllValidAppend(data, newRange, allowedDistanceToAverage);
      var extended := data + [newRange];
      assert AllValid(extended, allowedDistanceToAverage) && ValuesOf(extended) == before + [[value]];
      data := extended;
    }

    /** The first statement of `insert`: one more element. */
    method CountOne()
      requires RangesValid()
      modifies this
      ensures RangesValid() && Contents() == old(Contents())
      ensures data == old(data) && allowedDistanceToAverage == old(allowedDistanceToAverage)
      ensures totalElementCount == old(totalElementCount) + 1
    {
      totalElementCount := totalElementCount + 1;
    }

    /** One step of `insert`'s loop: offer the value to range i. */
    method TryRange(i: nat, value: real) returns (accepted: bool)
      requires RangesValid() && i < |data|
      modifies data[i]
      ensures RangesValid()
      ensures accepted <==> Accepts(old(Contents())[i], allowedDistanceToAverage, value)
      ensures accepted ==> Contents() == old(Contents())[i := old(Contents())[i] + [value]]
      ensures !accepted ==> Contents() == old(Contents())
    {
      ghost var before := Contents();
      accepted := data[i].Insert(value);
      forall j | 0 <= j < |data| && j != i
        ensures data[j].values == before[j] && data[j].Valid()
      {
        assert data[j] != data[i];
      }
    }

    /** The loop of `insert`: offer the value to each range in turn until
        one takes it. */
    method OfferToRanges(value: real) returns (accepted: bool)
      requires RangesValid()
      modifies data
      ensures RangesValid()
      ensures accepted <==> FirstAccepting(old(Contents()), allowedDistanceToAverage, value).Some?
      ensures Contents() == if accepted then InsertInto(old(Contents()), allowedDistanceToAverage, value) else old(Contents())
    {
      ghost var before := Contents();
      for i := 0 to |data|
        invariant RangesValid() && Contents() == before
        invariant FirstAccepting(before[..i], allowedDistanceToAverage, value).None?
      {
        accepted := TryRange(i, value);
        FirstAcceptingStep(before, allowedDistanceToAverage, value, i);
        if accepted {
          return;
        }
      }
      assert before[..|before|] == before;
      accepted := false;
    }

    /** `insert`: the element count grows by one and the value joins the
        first range that accepts it, or a new range. */
    method Insert(value: real)
      requires Valid()
      modifies this, data
      ensures Valid()
      ensures allowedDistanceToAverage == old(allowedDistanceToAverage)
      ensures totalElementCount == old(totalElementCount) + 1
      ensures Contents() == InsertInto(old(Contents()), allowedDistanceToAverage, value)
    {
      ghost var before := Contents();
      ghost var d := allowedDistanceToAverage;
      InsertIntoCounts(before, d, value);
      CountOne();
      assert Contents() == before && totalElementCount == TotalLen(before) + 1;
      var accepted := OfferToRanges(value);
      assert accepted ==> Contents() == InsertInto(before, d, value);
      if !accepted {
        AddNewRange(value);
        assert Contents() == InsertInto(before, d, value);
      }
      assert TotalLen(Contents()) == totalElementCount;
    }

    /** `weighted_average`: the mean of all values in the ranges holding at
        least the fraction `threshold` of all values, if any range does. */
    method WeightedAverage(threshold: real) returns (average: Option<real>)
      ensures average == WeightedAverageOf(Contents(), totalElementCount, threshold)
    {
      var weightCount: nat := 0;
      var averages := 0.0;
      for i := 0 to |data|
        invariant weightCount == QualifyingCount(Contents()[..i], totalElementCount, threshold)
        invariant averages == QualifyingSum(Contents()[..i], totalElementCount, threshold)
      {
        assert Contents()[..i + 1][..i] == Contents()[..i];
        if |data[i].values| as real >= totalElementCount as real * threshold {
          weightCount := weightCount + |data[i].values|;
          averages := averages + SumOf(data[i].values);
        }
      }
      assert Contents()[..|data|] == Contents();
      average := if weightCount != 0 then Some(averages / weightCount as real) else None;
    }
  }

  lemma {:induction false} TotalLenPositive(contents: seq<seq<real>>)
    requires |contents| > 0 && forall i :: 0 <= i < |contents| ==> |contents[i]| > 0
    ensures TotalLen(contents) > 0
  {
  }

  /** A range qualifies when it holds at least `threshold` of all values. */
  predicate Qualifies(values: seq<real>, total: nat, threshold: real) {
    |values| as real >= total as real * threshold
  }

  function QualifyingCount(contents: seq<seq<real>>, total: nat, threshold: real): nat {
    if |contents| == 0 then 0
    else
      var last := contents[|contents| - 1];
      QualifyingCount(contents[..|contents| - 1], total, threshold) + (if Qualifies(last, total, threshold) then |last| else 0)
  }

  function QualifyingSum(contents: seq<seq<real>>, total: nat, threshold: real): real {
    if |contents| == 0 then 0.0
    else
      var last := contents[|contents| - 1];
      QualifyingSum(contents[..|contents| - 1], total, threshold) + (if Qualifies(last, total, threshold) then SumOf(last) else 0.0)
  }

  function WeightedAverageOf(contents: seq<seq<real>>, total: nat, threshold: real): Option<real> {
    var count := QualifyingCount(contents, total, threshold);
    if count != 0 then Some(QualifyingSum(contents, total, threshold) / count as real) else None
  }

  /** With no empty range, there is no weighted average exactly when no
      range qualifies. */
  lemma {:induction false} WeightedAverageNone(contents: seq<seq<real>>, total: nat, threshold: real)
    requires forall i :: 0 <= i < |contents| ==> |contents[i]| > 0
    ensures WeightedAverageOf(contents, total, threshold).None? <==>
      forall i :: 0 <= i < |contents| ==> !Qualifies(contents[i], total, threshold)
  {
    if |contents| > 0 {
      var n := |contents| - 1;
      WeightedAverageNone(contents[..n], total, threshold);
      assert forall i :: 0 <= i < n ==> contents[..n][i] == contents[i];
    }
  }

  /** The sum of all values held. */
  function TotalSum(contents: seq<seq<real>>): real {
    if |contents| == 0 then 0.0 else TotalSum(contents[..|contents| - 1]) + SumOf(contents[|contents| - 1])
  }

  /** When every range qualifies (a threshold of at most zero, say), the
      weighted average is the mean of all values held. */
  lemma {:induction false} WeightedAverageOfAll(contents: seq<seq<real>>, total: nat, threshold: real)
    requires forall i :: 0 <= i < |contents| ==> Qualifies(contents[i], total, threshold)
    ensures QualifyingCount(contents, total, threshold) == TotalLen(contents)
    ensures QualifyingSum(contents, total, threshold) == TotalSum(contents)
  {
    if |contents| > 0 {
      var n := |contents| - 1;
      assert forall i :: 0 <= i < n ==> contents[..n][i] == contents[i];
      WeightedAverageOfAll(contents[..n], total, threshold);
    }
  }
}
