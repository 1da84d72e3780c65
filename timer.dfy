/**
 * The timing registry of okvis::timing: the process-wide `Timing` object that maps tags to
 * dense integer handles and keeps one statistics accumulator per handle, and the `Timer`
 * objects that start and stop a measurement against one handle.
 *
 * The registry is a singleton in the source; here it is an explicit object that every timer
 * refers to. The clock is not modelled: `Timer.Stop` takes the elapsed time as a parameter.
 * An accumulator keeps the samples it has been fed, from which count, sum, minimum and
 * maximum are defined.
 */
module Timers {
  import opened Wrappers

  /** std::numeric_limits<double>::max(), the largest finite double. */
  const DblMax: real := 179769313486231570814527423731704356798070567525844996598917476803157260780028538760589558632766878171540458953514382464234321326889464182768467546703537516986049910576551282076245490090389328944075868508455133942304583236903222948165808559332123348274797826204144723168738177180919299881250404026184124858368.0

  /** The conditions under which the registry and its timers raise TimerException. */
  datatype TimerError =
    | HandleOutOfRange(handle: nat, count: nat)
    | UnknownHandle(handle: nat)
    | AlreadyRunning
    | NotRunning

  // ---------------------------------------------------------------------------------------
  // Accumulators
  // ---------------------------------------------------------------------------------------

  /** The statistics accumulator of one handle: the samples fed to it, in arrival order. */
  datatype Accumulator = Accumulator(samples: seq<real>)

  /** A freshly constructed accumulator (TimerMapValue()). */
  const EmptyAccumulator: Accumulator := Accumulator([])

  /** Feeding one sample to an accumulator. */
  function Accumulate(acc: Accumulator, x: real): Accumulator {
    Accumulator(acc.samples + [x])
  }

  function Min2(a: real, b: real): real { if b < a then b else a }

  function Max2(a: real, b: real): real { if a < b then b else a }

  /** The count statistic. */
  function Count(acc: Accumulator): nat { |acc.samples| }

  /** The sum statistic, updated sample by sample from 0. */
  function SumOf(s: seq<real>): real {
    if |s| == 0 then 0.0 else SumOf(s[..|s| - 1]) + s[|s| - 1]
  }

  /** The minimum statistic, updated sample by sample from the largest double. */
  function MinOf(s: seq<real>): real {
    if |s| == 0 then DblMax else Min2(MinOf(s[..|s| - 1]), s[|s| - 1])
  }

  /** The maximum statistic, updated sample by sample from the most negative double. */
  function MaxOf(s: seq<real>): real {
    if |s| == 0 then -DblMax else Max2(MaxOf(s[..|s| - 1]), s[|s| - 1])
  }

  function Sum(acc: Accumulator): real { SumOf(acc.samples) }

  function Minimum(acc: Accumulator): real { MinOf(acc.samples) }

  function Maximum(acc: Accumulator): real { MaxOf(acc.samples) }

  /** A fresh accumulator has no samples, sum 0 and the two sentinel extremes. */
  lemma EmptyStatistics()
    ensures Count(EmptyAccumulator) == 0 && Sum(EmptyAccumulator) == 0.0
    ensures Minimum(EmptyAccumulator) == DblMax && Maximum(EmptyAccumulator) == -DblMax
  {
  }

  /** Feeding a sample adds one to the count and the sample to the sum, and folds it into the extremes. */
  lemma AccumulateStatistics(acc: Accumulator, x: real)
    ensures Count(Accumulate(acc, x)) == Count(acc) + 1
    ensures Sum(Accumulate(acc, x)) == Sum(acc) + x
    ensures Minimum(Accumulate(acc, x)) == Min2(Minimum(acc), x)
    ensures Maximum(Accumulate(acc, x)) == Max2(Maximum(acc), x)
  {
    assert Accumulate(acc, x).samples[..|acc.samples|] == acc.samples;
  }

  /** The minimum is below every sample and below the sentinel, and is one of them. */
  lemma {:induction false} MinIsLeast(s: seq<real>)
    ensures MinOf(s) <= DblMax
    ensures forall i :: 0 <= i < |s| ==> MinOf(s) <= s[i]
    ensures MinOf(s) == DblMax || exists i :: 0 <= i < |s| && s[i] == MinOf(s)
  {
    if |s| > 0 {
      var prefix := s[..|s| - 1];
      MinIsLeast(prefix);
      assert forall i :: 0 <= i < |prefix| ==> s[i] == prefix[i];
      if MinOf(s) != DblMax && MinOf(s) != s[|s| - 1] {
        var i :| 0 <= i < |prefix| && prefix[i] == MinOf(prefix);
        assert s[i] == MinOf(s);
      }
    }
  }

  /** The maximum is above every sample and above the sentinel, and is one of them. */
  lemma {:induction false} MaxIsGreatest(s: seq<real>)
    ensures MaxOf(s) >= -DblMax
    ensures forall i :: 0 <= i < |s| ==> s[i] <= MaxOf(s)
    ensures MaxOf(s) == -DblMax || exists i :: 0 <= i < |s| && s[i] == MaxOf(s)
  {
    if |s| > 0 {
      var prefix := s[..|s| - 1];
      MaxIsGreatest(prefix);
      assert forall i :: 0 <= i < |prefix| ==> s[i] == prefix[i];
      if MaxOf(s) != -DblMax && MaxOf(s) != s[|s| - 1] {
        var i :| 0 <= i < |prefix| && prefix[i] == MaxOf(prefix);
        assert s[i] == MaxOf(s);
      }
    }
  }

  /** The sum is at least count times the minimum. */
  lemma {:induction false} SumAboveMinimum(s: seq<real>)
    requires |s| > 0
    ensures |s| as real * MinOf(s) <= SumOf(s)
  {
    var prefix := s[..|s| - 1];
    var x := s[|s| - 1];
    assert SumOf(s) == SumOf(prefix) + x && MinOf(s) == Min2(MinOf(prefix), x);
    assert |s| as real == |prefix| as real + 1.0;
    if |prefix| > 0 {
      SumAboveMinimum(prefix);
    }
    BoundStep(|prefix| as real, MinOf(s), MinOf(prefix), SumOf(prefix), x);
  }

  /** The sum is at most count times the maximum. */
  lemma {:induction false} SumBelowMaximum(s: seq<real>)
    requires |s| > 0
    ensures SumOf(s) <= |s| as real * MaxOf(s)
  {
    var prefix := s[..|s| - 1];
    var x := s[|s| - 1];
    assert SumOf(s) == SumOf(prefix) + x && MaxOf(s) == Max2(MaxOf(prefix), x);
    assert |s| as real == |prefix| as real + 1.0;
    if |prefix| > 0 {
      SumBelowMaximum(prefix);
    }
    BoundStepAbove(|prefix| as real, MaxOf(s), MaxOf(prefix), SumOf(prefix), x);
  }

  /** One induction step of the bounds: n samples bounded by e, plus one more sample. */
  lemma BoundStep(n: real, e: real, e0: real, sum0: real, x: real)
    requires n >= 0.0 && e <= e0 && e <= x && n * e0 <= sum0
    ensures (n + 1.0) * e <= sum0 + x
  {
    assert n * e <= n * e0;
  }

  lemma BoundStepAbove(n: real, e: real, e0: real, sum0: real, x: real)
    requires n >= 0.0 && e0 <= e && x <= e && sum0 <= n * e0
    ensures sum0 + x <= (n + 1.0) * e
  {
    assert n * e0 <= n * e;
  }

  /** A sum of non-negative durations is non-negative. */
  lemma {:induction false} SumOfDurations(s: seq<real>)
    requires forall i :: 0 <= i < |s| ==> s[i] >= 0.0
    ensures SumOf(s) >= 0.0
  {
    if |s| > 0 {
      SumOfDurations(s[..|s| - 1]);
    }
  }

  // ---------------------------------------------------------------------------------------
  // The registry
  // ---------------------------------------------------------------------------------------

  /** The longest length among the tags, 0 when there is none. */
  function MaxLength(tags: seq<string>): nat {
    if |tags| == 0 then 0 else Max(MaxLength(tags[..|tags| - 1]), |tags[|tags| - 1]|)
  }

  /** std::max on lengths. */
  function Max(a: nat, b: nat): nat { if a < b then b else a }

  /** MaxLength is the length of the longest tag. */
  lemma {:induction false} MaxLengthIsLongest(tags: seq<string>)
    ensures forall i :: 0 <= i < |tags| ==> |tags[i]| <= MaxLength(tags)
    ensures |tags| == 0 ==> MaxLength(tags) == 0
    ensures |tags| > 0 ==> exists i :: 0 <= i < |tags| && |tags[i]| == MaxLength(tags)
  {
    if |tags| > 0 {
      var prefix := tags[..|tags| - 1];
      MaxLengthIsLongest(prefix);
      assert forall i :: 0 <= i < |prefix| ==> tags[i] == prefix[i];
      if |prefix| > 0 && MaxLength(tags) != |tags[|tags| - 1]| {
        var i :| 0 <= i < |prefix| && |prefix[i]| == MaxLength(prefix);
        assert |tags[i]| == MaxLength(tags);
      }
    }
  }

  /** m maps its keys one to one onto the handles 0 .. n-1. */
  predicate IsBijection(m: map<string, nat>, n: nat) {
    (forall t :: t in m ==> m[t] < n)
    && (forall t, t' :: t in m && t' in m && m[t] == m[t'] ==> t == t')
    && (forall h :: 0 <= h < n ==> h in m.Values)
  }

  /** The registry: a tag-to-handle map, one accumulator per handle and the longest tag length. */
  class Timing {
    var tagMap: map<string, nat>
    var timers: seq<Accumulator>
    var maxTagLength: nat
    /** tags[h] is the tag registered for handle h. */
    ghost var tags: seq<string>

    ghost predicate Valid()
      reads this
    {
      |tags| == |timers|
      && (forall h :: 0 <= h < |tags| ==> tags[h] in tagMap && tagMap[tags[h]] == h)
      && (forall t :: t in tagMap ==> tagMap[t] < |tags| && tags[tagMap[t]] == t)
      && maxTagLength == MaxLength(tags)
    }

    /** The invariant makes the tag map a bijection onto the handle range. */
    lemma ValidIsBijection()
      requires Valid()
      ensures IsBijection(tagMap, |timers|)
    {
      forall h | 0 <= h < |timers|
        ensures h in tagMap.Values
      {
        assert tagMap[tags[h]] == h;
      }
    }

    /** The registry state after getHandle(tag), given the state before. */
    ghost predicate Registered(tagMap0: map<string, nat>, timers0: seq<Accumulator>, maxTagLength0: nat,
                               tags0: seq<string>, tag: string)
      reads this
    {
      if tag in tagMap0 then
        tagMap == tagMap0 && timers == timers0 && maxTagLength == maxTagLength0 && tags == tags0
      else
        tagMap == tagMap0[tag := |timers0|] && timers == timers0 + [EmptyAccumulator]
        && maxTagLength == Max(maxTagLength0, |tag|) && tags == tags0 + [tag]
    }

    /** Timing(): no tags, no timers, maximum tag length 0. */
    constructor ()
      ensures Valid()
      ensures tagMap == map[] && timers == [] && maxTagLength == 0
    {
      tagMap := map[];
      timers := [];
      maxTagLength := 0;
      tags := [];
    }

    /**
     * getHandle: the handle of a registered tag, or the next dense handle for a new one,
     * which gets a fresh accumulator.
     */
    method GetHandle(tag: string) returns (handle: nat)
      requires Valid()
      modifies this
      ensures Valid()
      ensures Registered(old(tagMap), old(timers), old(maxTagLength), old(tags), tag)
      ensures tag in tagMap && handle == tagMap[tag] && handle < |timers| && tags[handle] == tag
      ensures tag in old(tagMap) ==> handle == old(tagMap[tag])
      ensures tag !in old(tagMap) ==> handle == old(|timers|)
    {
      if tag in tagMap {
        handle := tagMap[tag];
      } else {
        handle := |timers|;
        tagMap := tagMap[tag := handle];
        timers := timers + [EmptyAccumulator];
        maxTagLength := Max(maxTagLength, |tag|);
        tags := tags + [tag];
        assert tags[..|tags| - 1] == old(tags);
      }
    }

    /** getTag: a linear search of the tag map for the tag of a handle. */
    method GetTag(handle: nat) returns (r: Result<string, TimerError>)
      ensures r.Ok? <==> exists t :: t in tagMap && tagMap[t] == handle
      ensures r.Ok? ==> r.value in tagMap && tagMap[r.value] == handle
      ensures r.Err? ==> r.error == UnknownHandle(handle)
      ensures Valid() ==> (r.Ok? <==> handle < |timers|) && (r.Ok? ==> r.value == tags[handle])
    {
      if Valid() && handle < |timers| {
        assert tags[handle] in tagMap && tagMap[tags[handle]] == handle;
      }
      var remaining := tagMap.Keys;
      while remaining != {}
        invariant remaining <= tagMap.Keys
        invariant forall t :: t in tagMap && t !in remaining ==> tagMap[t] != handle
        decreases remaining
      {
        var t :| t in remaining;
        if tagMap[t] == handle {
          return Ok(t);
        }
        remaining := remaining - {t};
      }
      return Err(UnknownHandle(handle));
    }

    /** The range check every handle-based query performs. */
    function TimerAt(handle: nat): (r: Result<Accumulator, TimerError>)
      reads this
      ensures r.Ok? <==> handle < |timers|
      ensures r.Ok? ==> r.value == timers[handle]
      ensures r.Err? ==> r.error == HandleOutOfRange(handle, |timers|)
    {
      if handle < |timers| then Ok(timers[handle]) else Err(HandleOutOfRange(handle, |timers|))
    }

    /** getTotalSeconds(handle). */
    function TotalSeconds(handle: nat): (r: Result<real, TimerError>)
      reads this
      ensures r.Ok? <==> handle < |timers|
      ensures r.Ok? ==> r.value == Sum(timers[handle])
    {
      match TimerAt(handle)
      case Ok(acc) => Ok(Sum(acc))
      case Err(e) => Err(e)
    }

    /** getNumSamples(handle). */
    function NumSamples(handle: nat): (r: Result<nat, TimerError>)
      reads this
      ensures r.Ok? <==> handle < |timers|
      ensures r.Ok? ==> r.value == Count(timers[handle])
    {
      match TimerAt(handle)
      case Ok(acc) => Ok(Count(acc))
      case Err(e) => Err(e)
    }

    /** getMinSeconds(handle). */
    function MinSeconds(handle: nat): (r: Result<real, TimerError>)
      reads this
      ensures r.Ok? <==> handle < |timers|
      ensures r.Ok? ==> r.value == Minimum(timers[handle])
    {
      match TimerAt(handle)
      case Ok(acc) => Ok(Minimum(acc))
      case Err(e) => Err(e)
    }

    /** getMaxSeconds(handle). */
    function MaxSeconds(handle: nat): (r: Result<real, TimerError>)
      reads this
      ensures r.Ok? <==> handle < |timers|
      ensures r.Ok? ==> r.value == Maximum(timers[handle])
    {
      match TimerAt(handle)
      case Ok(acc) => Ok(Maximum(acc))
      case Err(e) => Err(e)
    }

    /** getTotalSeconds(tag): registers the tag when it is new, then queries its handle. */
    method TotalSecondsOf(tag: string) returns (seconds: real)
      requires Valid()
      modifies this
      ensures Valid() && Registered(old(tagMap), old(timers), old(maxTagLength), old(tags), tag)
      ensures tag in tagMap && TotalSeconds(tagMap[tag]) == Ok(seconds)
      ensures tag !in old(tagMap) ==> seconds == 0.0
    {
      var handle := GetHandle(tag);
      seconds := TotalSeconds(handle).value;
    }

    /** getNumSamples(tag). */
    method NumSamplesOf(tag: string) returns (count: nat)
      requires Valid()
      modifies this
      ensures Valid() && Registered(old(tagMap), old(timers), old(maxTagLength), old(tags), tag)
      ensures tag in tagMap && NumSamples(tagMap[tag]) == Ok(count)
      ensures tag !in old(tagMap) ==> count == 0
    {
      var handle := GetHandle(tag);
      count := NumSamples(handle).value;
    }

    /** getMinSeconds(tag). */
    method MinSecondsOf(tag: string) returns (seconds: real)
      requires Valid()
      modifies this
      ensures Valid() && Registered(old(tagMap), old(timers), old(maxTagLength), old(tags), tag)
      ensures tag in tagMap && MinSeconds(tagMap[tag]) == Ok(seconds)
      ensures tag !in old(tagMap) ==> seconds == DblMax
    {
      var handle := GetHandle(tag);
      seconds := MinSeconds(handle).value;
    }

    /** getMaxSeconds(tag). */
    method MaxSecondsOf(tag: string) returns (seconds: real)
      requires Valid()
      modifies this
      ensures Valid() && Registered(old(tagMap), old(timers), old(maxTagLength), old(tags), tag)
      ensures tag in tagMap && MaxSeconds(tagMap[tag]) == Ok(seconds)
      ensures tag !in old(tagMap) ==> seconds == -DblMax
    {
      var handle := GetHandle(tag);
      seconds := MaxSeconds(handle).value;
    }

    /** addTime: feeds one sample to the accumulator of a handle; the caller guarantees the range. */
    method AddTime(handle: nat, seconds: real)
      requires Valid() && handle < |timers|
      modifies this
      ensures Valid()
      ensures timers == old(timers)[handle := Accumulate(old(timers)[handle], seconds)]
      ensures tagMap == old(tagMap) && maxTagLength == old(maxTagLength) && tags == old(tags)
    {
      timers := timers[handle := Accumulate(timers[handle], seconds)];
    }

    /** reset(handle): replaces the accumulator of an in-range handle by a fresh one. */
    method Reset(handle: nat) returns (o: Outcome<TimerError>)
      requires Valid()
      modifies this
      ensures Valid()
      ensures tagMap == old(tagMap) && maxTagLength == old(maxTagLength) && tags == old(tags)
      ensures handle < old(|timers|) ==> o == Pass && timers == old(timers)[handle := EmptyAccumulator]
      ensures handle >= old(|timers|) ==> o == Fail(HandleOutOfRange(handle, |timers|)) && timers == old(timers)
    {
      if handle < |timers| {
        timers := timers[handle := EmptyAccumulator];
        o := Pass;
      } else {
        o := Fail(HandleOutOfRange(handle, |timers|));
      }
    }

    /** reset(tag): registers the tag when it is new, then resets its handle. */
    method ResetTag(tag: string)
      requires Valid()
      modifies this
      ensures Valid() && tag in tagMap
      ensures tagMap == old(tagMap)[tag := tagMap[tag]] && |timers| == |tags|
      ensures tag in old(tagMap) ==> tagMap[tag] == old(tagMap[tag]) && tagMap[tag] < old(|timers|)
                                     && timers == old(timers)[tagMap[tag] := EmptyAccumulator]
      ensures tag !in old(tagMap) ==> timers == old(timers) + [EmptyAccumulator]
      ensures NumSamples(tagMap[tag]) == Ok(0)
    {
      var handle := GetHandle(tag);
      var o := Reset(handle);
    }
  }

  /** getTag(getHandle(tag)) == tag. */
  method HandleTagRoundTrip(registry: Timing, tag: string) returns (r: Result<string, TimerError>)
    requires registry.Valid()
    modifies registry
    ensures registry.Valid()
    ensures r == Ok(tag)
  {
    var handle := registry.GetHandle(tag);
    r := registry.GetTag(handle);
  }

  // ---------------------------------------------------------------------------------------
  // Timers
  // ---------------------------------------------------------------------------------------

  /** A scoped measurement against one handle of a registry. */
  class Timer {
    var timing: bool
    var handle: nat
    const registry: Timing

    ghost predicate Valid()
      reads this, registry
    {
      registry.Valid() && handle < |registry.timers|
    }

    /** The member initialisers: stopped, on the given handle. */
    constructor Init(registry: Timing, handle: nat)
      ensures this.registry == registry && this.handle == handle && !timing
    {
      this.registry := registry;
      this.handle := handle;
      timing := false;
    }

    /** Timer(handle, constructStopped): raises on a handle outside the registry, else starts unless asked not to. */
    static method FromHandle(registry: Timing, handle: nat, constructStopped: bool) returns (r: Result<Timer, TimerError>)
      requires registry.Valid()
      ensures r.Ok? <==> handle < |registry.timers|
      ensures r.Err? ==> r.error == HandleOutOfRange(handle, |registry.timers|)
      ensures r.Ok? ==> fresh(r.value) && r.value.Valid() && r.value.registry == registry
                        && r.value.handle == handle && r.value.timing == !constructStopped
    {
      if handle >= |registry.timers| {
        return Err(HandleOutOfRange(handle, |registry.timers|));
      }
      var t := new Timer.Init(registry, handle);
      if !constructStopped {
        var o := t.Start();
      }
      return Ok(t);
    }

    /** Timer(tag, constructStopped): registers the tag, then starts unless asked not to. */
    static method FromTag(registry: Timing, tag: string, constructStopped: bool) returns (t: Timer)
      requires registry.Valid()
      modifies registry
      ensures registry.Registered(old(registry.tagMap), old(registry.timers), old(registry.maxTagLength), old(registry.tags), tag)
      ensures fresh(t) && t.Valid() && t.registry == registry && tag in registry.tagMap
      ensures t.handle == registry.tagMap[tag] && t.timing == !constructStopped
    {
      var handle := registry.GetHandle(tag);
      t := new Timer.Init(registry, handle);
      if !constructStopped {
        var o := t.Start();
      }
    }

    /** start: raises when already running, else marks the timer running. */
    method Start() returns (o: Outcome<TimerError>)
      modifies this
      ensures handle == old(handle)
      ensures old(timing) ==> o == Fail(AlreadyRunning) && timing
      ensures !old(timing) ==> o == Pass && timing
    {
      if timing {
        return Fail(AlreadyRunning);
      }
      timing := true;
      o := Pass;
    }

    /**
     * stop: raises when not running; otherwise records the elapsed time dt as one sample of
     * its handle and marks the timer stopped.
     */
    method Stop(dt: real) returns (o: Outcome<TimerError>)
      requires Valid()
      modifies this, registry
      ensures Valid() && handle == old(handle) && !timing
      ensures registry.tagMap == old(registry.tagMap) && registry.tags == old(registry.tags)
      ensures registry.maxTagLength == old(registry.maxTagLength)
      ensures !old(timing) ==> o == Fail(NotRunning) && registry.timers == old(registry.timers)
      ensures old(timing) ==> (o == Pass
              && registry.timers == old(registry.timers)[handle := Accumulate(old(registry.timers)[handle], dt)])
    {
      if !timing {
        return Fail(NotRunning);
      }
      registry.AddTime(handle, dt);
      timing := false;
      o := Pass;
    }

    /** isTiming. */
    function IsTiming(): (r: bool)
      reads this
      ensures r <==> timing
    {
      timing
    }

    /** discardTiming: stops without recording a sample. */
    method DiscardTiming()
      modifies this
      ensures !timing && handle == old(handle)
    {
      timing := false;
    }

    /** The destructor: stops (recording dt) only when running, so it never raises. */
    method Destroy(dt: real)
      requires Valid()
      modifies this, registry
      ensures Valid() && !timing
      ensures registry.tagMap == old(registry.tagMap) && registry.tags == old(registry.tags)
      ensures registry.maxTagLength == old(registry.maxTagLength)
      ensures !old(timing) ==> registry.timers == old(registry.timers)
      ensures old(timing) ==> registry.timers == old(registry.timers)[handle := Accumulate(old(registry.timers)[handle], dt)]
    {
      if IsTiming() {
        var o := Stop(dt);
      }
    }
  }

  // ---------------------------------------------------------------------------------------
  // secondsToTimeString
  // ---------------------------------------------------------------------------------------

  const LongMin: int := -0x8000_0000_0000_0000
  const LongMax: int := 0x7FFF_FFFF_FFFF_FFFF
  const IntMin: int := -0x8000_0000
  const IntMax: int := 0x7FFF_FFFF

  /** A conversion of a double to an integer type: rounds toward zero. */
  function Trunc(x: real): (r: int)
    ensures x >= 0.0 ==> r as real <= x < r as real + 1.0
    ensures x < 0.0 ==> r as real - 1.0 < x <= r as real
  {
    if x >= 0.0 then x.Floor else -((-x).Floor)
  }

  /** Narrowing a long to a 32-bit int: the value modulo 2^32, read as two's complement. */
  function ToInt32(v: int): (r: int)
    ensures IntMin <= r <= IntMax
    ensures (r - v) % 0x1_0000_0000 == 0
    ensures IntMin <= v <= IntMax ==> r == v
  {
    var m := v % 0x1_0000_0000;
    if m > IntMax then m - 0x1_0000_0000 else m
  }

  /** fmod(x, y): x minus the truncated quotient times y. */
  function Fmod(x: real, y: real): (r: real)
    requires y > 0.0
    ensures x >= 0.0 ==> 0.0 <= r < y
    ensures x < 0.0 ==> -y < r <= 0.0
  {
    TruncatedDivision(x, y);
    x - Trunc(x / y) as real * y
  }

  lemma TruncatedDivision(x: real, y: real)
    requires y > 0.0
    ensures x >= 0.0 ==> Trunc(x / y) as real * y <= x < Trunc(x / y) as real * y + y
    ensures x < 0.0 ==> Trunc(x / y) as real * y - y < x <= Trunc(x / y) as real * y
  {
    var v := x / y;
    assert v * y == x;
    QuotientBounds(x, y, v, Trunc(v) as real);
  }

  /** Bounds on a quotient v, with v * y = x, carry over to x, scaled by y. */
  lemma QuotientBounds(x: real, y: real, v: real, q: real)
    requires y > 0.0 && v * y == x
    requires x >= 0.0 ==> q <= v < q + 1.0
    requires x < 0.0 ==> q - 1.0 < v <= q
    ensures x >= 0.0 ==> q * y <= x < q * y + y
    ensures x < 0.0 ==> q * y - y < x <= q * y
  {
    if x >= 0.0 {
      ScaledAtLeast(x, y, v, q);
      ScaledBelowNext(x, y, v, q);
    } else {
      ScaledAbovePrevious(x, y, v, q);
      ScaledAtMost(x, y, v, q);
    }
  }

  lemma ScaledAtLeast(x: real, y: real, v: real, q: real)
    requires y > 0.0 && v * y == x && q <= v
    ensures q * y <= x
  {
    var d := v - q;
    assert d * y >= 0.0;
    assert d * y == x - q * y;
  }

  lemma ScaledBelowNext(x: real, y: real, v: real, q: real)
    requires y > 0.0 && v * y == x && v < q + 1.0
    ensures x < q * y + y
  {
    var d := q + 1.0 - v;
    assert d * y > 0.0;
    assert d * y == q * y + y - x;
  }

  lemma ScaledAbovePrevious(x: real, y: real, v: real, q: real)
    requires y > 0.0 && v * y == x && q - 1.0 < v
    ensures q * y - y < x
  {
    var d := v - (q - 1.0);
    assert d * y > 0.0;
    assert d * y == x - (q * y - y);
  }

  lemma ScaledAtMost(x: real, y: real, v: real, q: real)
    requires y > 0.0 && v * y == x && v <= q
    ensures x <= q * y
  {
    var d := q - v;
    assert d * y >= 0.0;
    assert d * y == q * y - x;
  }

  /** The hours, minutes and seconds fields secondsToTimeString formats. */
  datatype TimeFields = TimeFields(hours: int, minutes: int, secs: real)

  /**
   * The arithmetic of secondsToTimeString. The conversions to long are defined only when the
   * truncated quotient fits; the narrowing to int and the int subtraction wrap.
   */
  function SecondsToTimeFields(seconds: real): (r: TimeFields)
    requires LongMin <= Trunc(seconds / 60.0) <= LongMax
    ensures IntMin <= r.hours <= IntMax && IntMin <= r.minutes <= IntMax
    ensures -60.0 < r.secs < 60.0
  {
    var secs := Fmod(seconds, 60.0);
    var minutes := ToInt32(Trunc(seconds / 60.0));
    var hours := ToInt32(Trunc(seconds / 3600.0));
    TimeFields(hours, ToInt32(minutes - hours * 60), secs)
  }

  /** Below 2^31 minutes nothing wraps: the fields are hours, minutes in 0..59 and seconds in [0, 60). */
  lemma TimeFieldsDecompose(seconds: real)
    requires 0.0 <= seconds < 60.0 * (IntMax as real + 1.0)
    ensures LongMin <= Trunc(seconds / 60.0) <= LongMax
    ensures SecondsToTimeFields(seconds).hours == (seconds / 3600.0).Floor
    ensures 0 <= SecondsToTimeFields(seconds).minutes <= 59
    ensures 0.0 <= SecondsToTimeFields(seconds).secs < 60.0
    ensures SecondsToTimeFields(seconds).hours as real * 3600.0 + SecondsToTimeFields(seconds).minutes as real * 60.0
            + SecondsToTimeFields(seconds).secs == seconds
  {
    var m := (seconds / 60.0).Floor;
    var h := (seconds / 3600.0).Floor;
    TruncatedDivision(seconds, 60.0);
    TruncatedDivision(seconds, 3600.0);
    assert Trunc(seconds / 60.0) == m && Trunc(seconds / 3600.0) == h;
    assert 0 <= m <= IntMax;
    NestedFloor(seconds, m, h);
    assert 0 <= h <= IntMax;
    assert ToInt32(m) == m && ToInt32(h) == h;
    assert ToInt32(m - h * 60) == m - h * 60;
  }

  /** floor(s / 3600) is floor(floor(s / 60) / 60), so the minutes left over lie in 0..59. */
  lemma NestedFloor(s: real, m: int, h: int)
    requires s >= 0.0
    requires m as real * 60.0 <= s < m as real * 60.0 + 60.0
    requires h as real * 3600.0 <= s < h as real * 3600.0 + 3600.0
    ensures 0 <= m - h * 60 <= 59
  {
    assert m as real < h as real * 60.0 + 60.0;
    assert h as real * 60.0 < m as real + 1.0;
  }
}
