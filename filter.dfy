/** The adaptive occurrence-threshold policy. src/filter.js and
    src/defaultfilter.js hold the same constructor, defaults, `call` and
    `configure`; this one model stands for both. */
module Filters {
  import opened Records

  /** One entry of `lengthSteps`: a document shorter than `lim` tokens gets
      `value` as its minimal number of occurrences. */
  datatype Step = Step(lim: int, value: int)

  /** `values` are tried in order; `min` comes first and `max` is the
      fallback (its `lim` is never read). */
  datatype LengthSteps = LengthSteps(values: seq<Step>, min: Step, max: Step)

  /** The argument of `configure`: a number, or a value `isNaN` rejects. */
  datatype Length = Number(n: int) | NotANumber

  /** Constructor options; `None` is an absent option (and `new Filter()`
      is the options value with all three absent). */
  datatype FilterOptions = FilterOptions(
    minOccur: Option<int>,
    noLimitStrength: Option<int>,
    lengthSteps: Option<LengthSteps>)

  const DefaultLengthSteps := LengthSteps([Step(3000, 4)], Step(1000, 1), Step(6000, 7))
  const DefaultMinOccur := 7
  const DefaultNoLimitStrength := 2
  const NoOptions := FilterOptions(None, None, None)

  /** A numeric option is used only when it is truthy, i.e. present and not 0. */
  predicate Truthy(o: Option<int>)
  {
    o.Some? && o.value != 0
  }

  /** The value of the first step whose (exclusive) bound exceeds `length`,
      or `fallback` when there is none. */
  function FirstStep(values: seq<Step>, length: int, fallback: int): int
  {
    if values == [] then fallback
    else if length < values[0].lim then values[0].value
    else FirstStep(values[1..], length, fallback)
  }

  /** The step function `configure` applies to a numeric length. */
  function Threshold(steps: LengthSteps, length: int): int
  {
    if length < steps.min.lim then steps.min.value
    else FirstStep(steps.values, length, steps.max.value)
  }

  /** The acceptance rule of `call`. */
  predicate Accepts(minOccur: int, noLimitStrength: int, occur: int, strength: int)
  {
    (strength < noLimitStrength && occur >= minOccur) || strength >= noLimitStrength
  }

  class Filter {
    var minOccur: int
    var noLimitStrength: int
    var lengthSteps: LengthSteps

    /** Falsy options (absent, or 0) are replaced by the defaults. */
    constructor (options: FilterOptions)
      ensures Truthy(options.minOccur) ==> minOccur == options.minOccur.value
      ensures !Truthy(options.minOccur) ==> minOccur == DefaultMinOccur
      ensures Truthy(options.noLimitStrength) ==> noLimitStrength == options.noLimitStrength.value
      ensures !Truthy(options.noLimitStrength) ==> noLimitStrength == DefaultNoLimitStrength
      ensures options.lengthSteps.Some? ==> lengthSteps == options.lengthSteps.value
      ensures options.lengthSteps.None? ==> lengthSteps == DefaultLengthSteps
    {
      minOccur := if Truthy(options.minOccur) then options.minOccur.value else DefaultMinOccur;
      noLimitStrength := if Truthy(options.noLimitStrength) then options.noLimitStrength.value
                         else DefaultNoLimitStrength;
      lengthSteps := if options.lengthSteps.Some? then options.lengthSteps.value else DefaultLengthSteps;
    }

    /** `call(occur, strength)`: long phrases always pass; shorter ones need
        at least `minOccur` occurrences. */
    function Call(occur: int, strength: int): (accepted: bool)
      reads this
      ensures strength >= noLimitStrength ==> accepted
      ensures strength < noLimitStrength ==> (accepted <==> occur >= minOccur)
    {
      Accepts(minOccur, noLimitStrength, occur, strength)
    }

    /** `configure(length)`: sets `minOccur` from the length steps and returns
        it, or returns null (and changes nothing) for a non-numeric length. */
    method Configure(length: Length) returns (r: Option<int>)
      modifies this`minOccur
      ensures length.NotANumber? ==> r.None? && minOccur == old(minOccur)
      ensures length.Number? ==> minOccur == Threshold(lengthSteps, length.n) && r == Some(minOccur)
      ensures noLimitStrength == old(noLimitStrength) && lengthSteps == old(lengthSteps)
    {
      if length.NotANumber? {
        return None;
      }
      var n := length.n;
      if n < lengthSteps.min.lim {
        minOccur := lengthSteps.min.value;
        return Some(minOccur);
      }
      for i := 0 to |lengthSteps.values|
        invariant FirstStep(lengthSteps.values[i..], n, lengthSteps.max.value) == Threshold(lengthSteps, n)
      {
        if n < lengthSteps.values[i].lim {
          minOccur := lengthSteps.values[i].value;
          return Some(minOccur);
        }
        assert lengthSteps.values[i..][1..] == lengthSteps.values[i + 1..];
      }
      minOccur := lengthSteps.max.value;
      return Some(minOccur);
    }
  }

  /** The documented usage with the defaults: `configure(500)` gives 1 and
      accepts a single occurrence of a single word; `configure(5000)` gives 7
      and rejects it; `configure('test')` gives null. */
  method DefaultUsage() returns (small: Option<int>, smallAccepts: bool,
                                 large: Option<int>, largeAccepts: bool, text: Option<int>)
    ensures small == Some(1) && smallAccepts
    ensures large == Some(7) && !largeAccepts
    ensures text == None
  {
    var f := new Filter(NoOptions);
    small := f.Configure(Number(500));
    smallAccepts := f.Call(1, 1);
    large := f.Configure(Number(5000));
    largeAccepts := f.Call(1, 1);
    text := f.Configure(NotANumber);
  }

  lemma ThresholdBelowMin(steps: LengthSteps, length: int)
    requires length < steps.min.lim
    ensures Threshold(steps, length) == steps.min.value
  {
  }

  /** The first step whose bound exceeds `length` decides. */
  lemma {:induction false} ThresholdFirstMatch(steps: LengthSteps, length: int, i: nat)
    requires length >= steps.min.lim
    requires i < |steps.values| && length < steps.values[i].lim
    requires forall j :: 0 <= j < i ==> steps.values[j].lim <= length
    ensures Threshold(steps, length) == steps.values[i].value
  {
    FirstStepAt(steps.values, length, steps.max.value, i);
  }

  lemma {:induction false} FirstStepAt(values: seq<Step>, length: int, fallback: int, i: nat)
    requires i < |values| && length < values[i].lim
    requires forall j :: 0 <= j < i ==> values[j].lim <= length
    ensures FirstStep(values, length, fallback) == values[i].value
  {
    if i > 0 {
      FirstStepAt(values[1..], length, fallback, i - 1);
    }
  }

  /** With no bound above `length`, `max.value` is used. */
  lemma {:induction false} ThresholdNoMatch(steps: LengthSteps, length: int)
    requires length >= steps.min.lim
    requires forall j :: 0 <= j < |steps.values| ==> steps.values[j].lim <= length
    ensures Threshold(steps, length) == steps.max.value
  {
    FirstStepNone(steps.values, length, steps.max.value);
  }

  lemma {:induction false} FirstStepNone(values: seq<Step>, length: int, fallback: int)
    requires forall j :: 0 <= j < |values| ==> values[j].lim <= length
    ensures FirstStep(values, length, fallback) == fallback
  {
    if values != [] {
      FirstStepNone(values[1..], length, fallback);
    }
  }

  /** Bounds are exclusive: a length equal to a step's `lim` falls through
      to the steps after it. */
  lemma {:induction false} ThresholdAtBound(steps: LengthSteps, i: nat)
    requires i < |steps.values| && steps.values[i].lim >= steps.min.lim
    requires forall j :: 0 <= j < i ==> steps.values[j].lim <= steps.values[i].lim
    ensures Threshold(steps, steps.values[i].lim)
         == FirstStep(steps.values[i + 1..], steps.values[i].lim, steps.max.value)
  {
    FirstStepSkip(steps.values, steps.values[i].lim, steps.max.value, i + 1);
  }

  lemma {:induction false} FirstStepSkip(values: seq<Step>, length: int, fallback: int, k: nat)
    requires k <= |values|
    requires forall j :: 0 <= j < k ==> values[j].lim <= length
    ensures FirstStep(values, length, fallback) == FirstStep(values[k..], length, fallback)
  {
    if k > 0 {
      FirstStepSkip(values[1..], length, fallback, k - 1);
      assert values[1..][k - 1..] == values[k..];
    }
  }

  /** `max.lim` plays no part in the threshold. */
  lemma ThresholdIgnoresMaxLim(steps: LengthSteps, lim: int, length: int)
    ensures Threshold(steps, length) == Threshold(steps.(max := Step(lim, steps.max.value)), length)
  {
  }

  /** Length steps whose bounds ascend and whose values do not decrease. */
  ghost predicate Monotone(steps: LengthSteps)
  {
    && steps.min.value <= steps.max.value
    && (forall j :: 0 <= j < |steps.values| ==> steps.min.lim <= steps.values[j].lim)
    && (forall j :: 0 <= j < |steps.values| ==>
          steps.min.value <= steps.values[j].value <= steps.max.value)
    && (forall j, k :: 0 <= j < k < |steps.values| ==>
          steps.values[j].lim <= steps.values[k].lim && steps.values[j].value <= steps.values[k].value)
  }

  /** For monotone steps the threshold never decreases as the document grows. */
  lemma ThresholdMonotone(steps: LengthSteps, short: int, long: int)
    requires Monotone(steps) && short <= long
    ensures Threshold(steps, short) <= Threshold(steps, long)
  {
    if short >= steps.min.lim {
      FirstStepMonotone(steps.values, short, long, steps.min.value, steps.max.value);
    } else if long >= steps.min.lim {
      FirstStepBounds(steps.values, long, steps.min.value, steps.max.value);
    }
  }

  lemma {:induction false} FirstStepBounds(values: seq<Step>, length: int, low: int, fallback: int)
    requires low <= fallback
    requires forall j :: 0 <= j < |values| ==> low <= values[j].value <= fallback
    ensures low <= FirstStep(values, length, fallback) <= fallback
  {
    if values != [] && length >= values[0].lim {
      FirstStepBounds(values[1..], length, low, fallback);
    }
  }

  lemma {:induction false} FirstStepMonotone(values: seq<Step>, short: int, long: int, low: int, fallback: int)
    requires short <= long && low <= fallback
    requires forall j :: 0 <= j < |values| ==> low <= values[j].value <= fallback
    requires forall j, k :: 0 <= j < k < |values| ==>
               values[j].lim <= values[k].lim && values[j].value <= values[k].value
    ensures FirstStep(values, short, fallback) <= FirstStep(values, long, fallback)
  {
    if values != [] {
      if short < values[0].lim {
        if long >= values[0].lim {
          FirstStepAtLeast(values[1..], long, values[0].value, fallback);
        }
      } else {
        FirstStepMonotone(values[1..], short, long, low, fallback);
      }
    }
  }

  lemma {:induction false} FirstStepAtLeast(values: seq<Step>, length: int, low: int, fallback: int)
    requires low <= fallback
    requires forall j :: 0 <= j < |values| ==> low <= values[j].value
    ensures low <= FirstStep(values, length, fallback)
  {
    if values != [] && length >= values[0].lim {
      FirstStepAtLeast(values[1..], length, low, fallback);
    }
  }

  /** The default steps: 1 below 1000 tokens, 4 below 3000, 7 from 3000 on. */
  lemma DefaultThresholds()
    ensures Threshold(DefaultLengthSteps, 500) == 1
    ensures Threshold(DefaultLengthSteps, 1000) == 4
    ensures Threshold(DefaultLengthSteps, 2000) == 4
    ensures Threshold(DefaultLengthSteps, 3000) == 7
    ensures Threshold(DefaultLengthSteps, 5000) == 7
    ensures Monotone(DefaultLengthSteps)
  {
  }
}
