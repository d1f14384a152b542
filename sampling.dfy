/** The `Sampler`: runs a damage procedure a fixed number of times, keeps
    a running sum and reports the mean, optionally against a standard.

    The procedure `calculate` is given by what its successive calls return
    or raise; `avg` is absent until a run has completed. */
module Sampling {
  import opened Prelude

  /** The sum of a sequence of sampled values, added up left to right. */
  function Total(s: seq<int>): int
    decreases |s|
  {
    if s == [] then 0 else Total(s[..|s| - 1]) + s[|s| - 1]
  }

  /** How many calls of `calculate` returned before the first one that raised. */
  function ReturnedCount(results: seq<Result<int>>): (n: nat)
    ensures n <= |results|
    ensures forall j :: 0 <= j < n ==> results[j].Ok?
    ensures n < |results| ==> results[n].Err?
    decreases |results|
  {
    if results == [] || results[0].Err? then 0 else 1 + ReturnedCount(results[1..])
  }

  /** The values of calls that all returned. */
  function Values(results: seq<Result<int>>): (vs: seq<int>)
    requires forall j :: 0 <= j < |results| ==> results[j].Ok?
    ensures |vs| == |results|
    ensures forall j :: 0 <= j < |results| ==> vs[j] == results[j].value
    decreases |results|
  {
    if results == [] then [] else Values(results[..|results| - 1]) + [results[|results| - 1].value]
  }

  /** One report line: the short layout, or the layout with the gain columns. */
  datatype Row =
    | Short(name: string, avg: real)
    | WithGain(name: string, avg: real, gain: real, percent: real)

  /** Python truthiness of `standard`: set and not zero. */
  predicate ShowsGain(standard: Option<real>) {
    standard.Some? && standard.value != 0.0
  }

  class Sampler {
    var name: string
    var samples: int
    var sum: int
    var standard: Option<real>
    var avg: Option<real>

    /** `Sampler(name, samples)`: no samples taken, no standard, no average. */
    constructor (name: string, samples: int)
      ensures this.name == name && this.samples == samples
      ensures sum == 0 && standard == None && avg == None
    {
      this.name := name;
      this.samples := samples;
      sum := 0;
      standard := None;
      avg := None;
    }

    /** `Sampler.run`: calls `calculate` once per sample, adding every
        result to `sum` (which is never reset), then sets `avg`. A call that
        raises ends the run: the results added before it stay in `sum` and
        `avg` is left as it was. With no samples the division fails and
        `avg` is left as it was. */
    method Run(results: seq<Result<int>>) returns (outcome: Outcome)
      requires |results| == RangeLength(samples)
      modifies this`sum, this`avg
      ensures var n := ReturnedCount(results);
              sum == old(sum) + Total(Values(results[..n]))
      ensures ReturnedCount(results) < |results| ==>
                outcome == Fail(results[ReturnedCount(results)].error) && avg == old(avg)
      ensures ReturnedCount(results) == |results| && samples != 0 ==>
                outcome == Pass && avg == Some(sum as real / samples as real)
      ensures ReturnedCount(results) == |results| && samples == 0 ==>
                outcome == Fail(ZeroDivision) && avg == old(avg)
    {
      var i := 0;
      while i < samples
        invariant 0 <= i <= ReturnedCount(results)
        invariant sum == old(sum) + Total(Values(results[..i]))
        invariant avg == old(avg)
      {
        var result := results[i];
        if result.Err? {
          return Fail(result.error);
        }
        assert results[..i + 1][..i] == results[..i];
        sum := sum + result.value;
        i := i + 1;
      }
      if samples == 0 {
        return Fail(ZeroDivision);
      }
      avg := Some(sum as real / samples as real);
      return Pass;
    }

    /** The choice `Sampler.summarize` makes: the gain columns only for a
        truthy standard, the gain relative to the standard, and the percent
        gain relative to this sampler's own average. */
    function Summarize(): (r: Result<Row>)
      reads this
      ensures r.Ok? <==> avg.Some? && !(ShowsGain(standard) && avg.value == 0.0)
      ensures avg.None? ==> r == Err(MissingAverage)
      ensures avg.Some? && ShowsGain(standard) && avg.value == 0.0 ==> r == Err(ZeroDivision)
      ensures r.Ok? ==> r.value.name == name && r.value.avg == avg.value
      ensures r.Ok? ==> (r.value.WithGain? <==> ShowsGain(standard))
      ensures r.Ok? && r.value.WithGain? ==>
                r.value.gain == avg.value - standard.value &&
                r.value.percent * avg.value == r.value.gain
    {
      if avg.None? then Err(MissingAverage)
      else if ShowsGain(standard) then
        if avg.value == 0.0 then Err(ZeroDivision)
        else
          var gain := avg.value - standard.value;
          Ok(WithGain(name, avg.value, gain, gain / avg.value))
      else Ok(Short(name, avg.value))
    }
  }

  /** Totals split over concatenation: two runs add up to one long run. */
  lemma {:induction false} TotalAppend(a: seq<int>, b: seq<int>)
    ensures Total(a + b) == Total(a) + Total(b)
    decreases |b|
  {
    if b != [] {
      var b' := b[..|b| - 1];
      assert (a + b)[..|a + b| - 1] == a + b';
      TotalAppend(a, b');
    } else {
      assert a + b == a;
    }
  }

  /** Samples within `[lo, hi]` add up to between `|s| * lo` and `|s| * hi`. */
  lemma {:induction false} TotalBounds(s: seq<int>, lo: int, hi: int)
    requires forall i :: 0 <= i < |s| ==> lo <= s[i] <= hi
    ensures |s| * lo <= Total(s) <= |s| * hi
    decreases |s|
  {
    if s != [] {
      var n := |s|;
      var prefix := s[..n - 1];
      assert forall i :: 0 <= i < |prefix| ==> prefix[i] == s[i];
      TotalBounds(prefix, lo, hi);
      assert Total(s) == Total(prefix) + s[n - 1];
      assert (n - 1) * lo + lo == n * lo;
      assert (n - 1) * hi + hi == n * hi;
    }
  }

  /** The average of a run lies between the smallest and largest possible sample. */
  lemma AverageWithinBounds(s: seq<int>, lo: int, hi: int)
    requires |s| > 0
    requires forall i :: 0 <= i < |s| ==> lo <= s[i] <= hi
    ensures lo as real <= Total(s) as real / |s| as real <= hi as real
  {
    TotalBounds(s, lo, hi);
    var n := |s| as real;
    assert (|s| * lo) as real == n * lo as real;
    assert (|s| * hi) as real == n * hi as real;
  }

  /** A procedure that always returns `v` sums to `n * v` and averages `v`. */
  lemma {:induction false} ConstantRun(v: int, n: nat)
    ensures Total(seq(n, _ => v)) == n * v
    ensures n > 0 ==> Total(seq(n, _ => v)) as real / n as real == v as real
  {
    if n > 0 {
      assert seq(n, _ => v)[..n - 1] == seq(n - 1, _ => v);
      ConstantRun(v, n - 1);
      assert (n * v) as real == n as real * v as real;
    }
  }

  /** Two runs of one fresh sampler whose calls all return: the second adds
      to the first's sum, so the reported average counts both runs over a
      single `samples`. */
  method RunTwice(samples: int, first: seq<Result<int>>, second: seq<Result<int>>)
    returns (sum: int, avg: Option<real>)
    requires |first| == RangeLength(samples) && |second| == RangeLength(samples)
    requires forall j :: 0 <= j < |first| ==> first[j].Ok?
    requires forall j :: 0 <= j < |second| ==> second[j].Ok?
    ensures sum == Total(Values(first)) + Total(Values(second)) == Total(Values(first) + Values(second))
    ensures samples != 0 ==> avg == Some((Total(Values(first)) + Total(Values(second))) as real / samples as real)
    ensures samples == 0 ==> avg == None
  {
    var sampler := new Sampler("variant", samples);
    assert first[..|first|] == first && second[..|second|] == second;
    var _ := sampler.Run(first);
    var _ := sampler.Run(second);
    TotalAppend(Values(first), Values(second));
    sum, avg := sampler.sum, sampler.avg;
  }

  /** The percent gain divides by the variant's average, not the standard:
      an average of 12 against a standard of 10 gains 2, which is 1/6. */
  lemma PercentGainExample(s: Sampler)
    requires s.avg == Some(12.0) && s.standard == Some(10.0)
    ensures s.Summarize() == Ok(WithGain(s.name, 12.0, 2.0, 2.0 / 12.0))
  {
  }

  /** No standard and a standard of 0 both select the short layout. */
  lemma FalsyStandardIsShort(s: Sampler)
    requires s.avg.Some? && (s.standard == None || s.standard == Some(0.0))
    ensures s.Summarize() == Ok(Short(s.name, s.avg.value))
  {
  }
}
