/** The microphone worklet (frontend/public/voice/pcm-worklet.js): a streaming
    downsampler that carries a fractional read position and the unread samples
    from one audio block to the next. Samples and the rate ratio are reals. */
module Downsampler {
  import opened Sequences

  const TARGET_RATE := 16000.0

  function Ceil(x: real): int { -(-x).Floor }

  function Sum(data: seq<real>, lo: nat, hi: nat): real
    requires lo <= hi <= |data|
  {
    if lo == hi then 0.0 else Sum(data, lo, hi - 1) + data[hi - 1]
  }

  /** The sum of k equal samples, and bounds on any sum. */
  lemma {:induction false} SumBounds(data: seq<real>, lo: nat, hi: nat, least: real, greatest: real)
    requires lo <= hi <= |data|
    requires forall i :: lo <= i < hi ==> least <= data[i] <= greatest
    ensures (hi - lo) as real * least <= Sum(data, lo, hi) <= (hi - lo) as real * greatest
  {
    if lo < hi {
      SumBounds(data, lo, hi - 1, least, greatest);
      assert (hi - lo) as real * least == (hi - 1 - lo) as real * least + least;
      assert (hi - lo) as real * greatest == (hi - 1 - lo) as real * greatest + greatest;
    }
  }

  /** A sum is that of its two halves, and of one sample that sample. */
  lemma {:induction false} SumSplits(data: seq<real>, lo: nat, mid: nat, hi: nat)
    requires lo <= mid <= hi <= |data|
    ensures Sum(data, lo, hi) == Sum(data, lo, mid) + Sum(data, mid, hi)
    ensures lo < |data| ==> Sum(data, lo, lo + 1) == data[lo]
  {
    if mid < hi {
      SumSplits(data, lo, mid, hi - 1);
    }
    if lo < |data| {
      assert Sum(data, lo, lo) == 0.0;
    }
  }

  /** Clamping, scaling by the sign's own factor, and rounding to the nearest, halves up. */
  function Quantize(sample: real): (r: int)
    ensures -0x8000 <= r <= 0x7fff
    ensures sample == 0.0 ==> r == 0
    ensures sample >= 1.0 ==> r == 0x7fff
    ensures sample <= -1.0 ==> r == -0x8000
    ensures 0.0 <= sample < 1.0 ==> r as real - 0.5 <= sample * 32767.0 < r as real + 0.5
    ensures -1.0 < sample < 0.0 ==> r as real - 0.5 <= sample * 32768.0 < r as real + 0.5
  {
    var clamped := if sample < -1.0 then -1.0 else if sample > 1.0 then 1.0 else sample;
    ((if clamped < 0.0 then clamped * 32768.0 else clamped * 32767.0) + 0.5).Floor
  }

  /** The mean of every source sample touched by the window [start, start + ratio). */
  function Window(data: seq<real>, start: real, ratio: real): int
    requires ratio > 0.0 && 0.0 <= start && start + ratio <= |data| as real
  {
    var lo, hi := start.Floor, Ceil(start + ratio);
    Quantize(Sum(data, lo, hi) / (hi - lo) as real)
  }

  /** The window touches sample i when the two intervals overlap. */
  predicate Touches(start: real, ratio: real, i: int) {
    (i + 1) as real > start && i as real < start + ratio
  }

  /** The samples a window touches are those from lo to hi, and it is their mean, quantised,
      which lies between the least and the greatest of them. */
  lemma WindowIsMean(data: seq<real>, start: real, ratio: real, least: real, greatest: real)
    requires ratio > 0.0 && 0.0 <= start && start + ratio <= |data| as real
    requires forall i :: 0 <= i < |data| && Touches(start, ratio, i) ==> least <= data[i] <= greatest
    ensures exists lo: nat, hi: nat :: TouchedAre(data, start, ratio, lo, hi)
              && least <= Sum(data, lo, hi) / (hi - lo) as real <= greatest
              && Window(data, start, ratio) == Quantize(Sum(data, lo, hi) / (hi - lo) as real)
    ensures least == greatest ==> Window(data, start, ratio) == Quantize(least)
  {
    var lo, hi := start.Floor, Ceil(start + ratio);
    assert TouchedAre(data, start, ratio, lo, hi) by {
      assert forall i :: Touches(start, ratio, i) <==> lo <= i < hi;
    }
    SumBounds(data, lo, hi, least, greatest);
    MeanBounds(Sum(data, lo, hi), hi - lo, least, greatest);
  }

  ghost predicate TouchedAre(data: seq<real>, start: real, ratio: real, lo: nat, hi: nat) {
    lo < hi <= |data| && forall i :: Touches(start, ratio, i) <==> lo <= i < hi
  }

  lemma MeanBounds(sum: real, count: int, least: real, greatest: real)
    requires count > 0 && count as real * least <= sum <= count as real * greatest
    ensures least <= sum / count as real <= greatest
  {
    var mean := sum / count as real;
    assert mean * count as real == sum;
    NotNegative(mean - least, count);
    NotNegative(greatest - mean, count);
  }

  lemma NotNegative(x: real, count: int)
    requires count > 0 && x * count as real >= 0.0
    ensures x >= 0.0
  {
  }

  /** Where window k starts in the whole stream: k steps of the ratio. */
  ghost function Start(k: nat, ratio: real): real {
    if k == 0 then 0.0 else Start(k - 1, ratio) + ratio
  }

  lemma {:induction false} StartIs(k: nat, ratio: real)
    ensures Start(k, ratio) == k as real * ratio
  {
    if k > 0 {
      StartIs(k - 1, ratio);
      assert (k - 1) as real * ratio + ratio == k as real * ratio;
    }
  }

  lemma {:induction false} StartMonotone(j: nat, k: nat, ratio: real)
    requires ratio > 0.0 && j <= k
    ensures Start(j, ratio) <= Start(k, ratio)
    ensures j < k ==> Start(j, ratio) + ratio <= Start(k, ratio)
  {
    if j < k {
      StartMonotone(j, k - 1, ratio);
    }
  }

  /** c windows fit into n samples and c + 1 do not. */
  ghost predicate Fits(n: nat, ratio: real, c: nat) {
    Start(c, ratio) <= n as real < Start(c + 1, ratio)
  }

  lemma FloorFits(n: nat, ratio: real)
    requires ratio > 0.0
    ensures (n as real / ratio).Floor >= 0 && Fits(n, ratio, (n as real / ratio).Floor)
  {
    var q := n as real / ratio;
    assert q * ratio == n as real;
    var c := q.Floor;
    StartIs(c, ratio);
    StartIs(c + 1, ratio);
    assert c as real * ratio <= q * ratio;
    assert (c + 1) as real * ratio > q * ratio;
  }

  ghost function OutputCount(n: nat, ratio: real): (c: nat)
    requires ratio > 0.0
    ensures Fits(n, ratio, c)
  {
    FloorFits(n, ratio);
    var c: nat :| Fits(n, ratio, c);
    c
  }

  lemma OutputCountUnique(n: nat, ratio: real, c: nat)
    requires ratio > 0.0 && Fits(n, ratio, c)
    ensures OutputCount(n, ratio) == c
  {
    var d := OutputCount(n, ratio);
    if c < d {
      StartMonotone(c + 1, d, ratio);
    } else if d < c {
      StartMonotone(d + 1, c, ratio);
    }
  }

  /** The output rate is exact: floor(n / ratio), however the input was cut. */
  lemma OutputCountIsFloor(n: nat, ratio: real)
    requires ratio > 0.0
    ensures OutputCount(n, ratio) == (n as real / ratio).Floor
  {
    FloorFits(n, ratio);
    OutputCountUnique(n, ratio, (n as real / ratio).Floor);
  }

  /** Window k is due once the stream reaches the start of window k + 1. */
  lemma DueIff(n: nat, ratio: real, k: nat)
    requires ratio > 0.0
    ensures 0.0 <= Start(k, ratio)
    ensures k < OutputCount(n, ratio) <==> Start(k, ratio) + ratio <= n as real
  {
    var c := OutputCount(n, ratio);
    StartMonotone(0, k, ratio);
    if k < c {
      StartMonotone(k + 1, c, ratio);
    } else {
      StartMonotone(c + 1, k + 1, ratio);
    }
  }

  /** The one-shot answer: output k averages the window that starts at k * ratio. */
  ghost function Resample(input: seq<real>, ratio: real): (out: seq<int>)
    requires ratio > 0.0
    ensures |out| == OutputCount(|input|, ratio)
  {
    seq(OutputCount(|input|, ratio), k requires 0 <= k < OutputCount(|input|, ratio) =>
      WindowAt(input, ratio, k))
  }

  ghost function WindowAt(input: seq<real>, ratio: real, k: nat): int
    requires ratio > 0.0 && k < OutputCount(|input|, ratio)
  {
    DueIff(|input|, ratio, k);
    Window(input, Start(k, ratio), ratio)
  }

  /** Index of the first sample a stream that was fed n samples still needs. */
  ghost function BaseAfter(n: nat, ratio: real): (base: nat)
    requires ratio > 0.0
    ensures base <= n
  {
    StartMonotone(0, OutputCount(n, ratio), ratio);
    Start(OutputCount(n, ratio), ratio).Floor
  }

  ghost function PositionAfter(n: nat, ratio: real): real
    requires ratio > 0.0
  {
    Start(OutputCount(n, ratio), ratio) - BaseAfter(n, ratio) as real
  }

  lemma CarriedStateBounds(n: nat, ratio: real)
    requires ratio > 0.0
    ensures 0.0 <= PositionAfter(n, ratio) < 1.0
    ensures (n - BaseAfter(n, ratio)) as real < ratio + 1.0
  {
    DueIff(n, ratio, OutputCount(n, ratio));
  }

  lemma {:induction false} SumShift(data: seq<real>, base: nat, lo: nat, hi: nat)
    requires base <= |data| && lo <= hi <= |data| - base
    ensures Sum(data[base..], lo, hi) == Sum(data, base + lo, base + hi)
  {
    if lo < hi {
      SumShift(data, base, lo, hi - 1);
    }
  }

  lemma {:induction false} SumPrefix(data: seq<real>, more: seq<real>, lo: nat, hi: nat)
    requires lo <= hi <= |data|
    ensures Sum(data, lo, hi) == Sum(data + more, lo, hi)
  {
    if lo < hi {
      SumPrefix(data, more, lo, hi - 1);
    }
  }

  /** A window read at a position relative to a dropped prefix is the window of
      the whole stream. */
  lemma WindowShift(data: seq<real>, base: nat, start: real, ratio: real)
    requires ratio > 0.0 && base <= |data| && base as real <= start && start + ratio <= |data| as real
    ensures Window(data[base..], start - base as real, ratio) == Window(data, start, ratio)
  {
    var lo, hi := start.Floor, Ceil(start + ratio);
    assert (start - base as real).Floor == lo - base;
    assert Ceil(start - base as real + ratio) == hi - base;
    SumShift(data, base, lo - base, hi - base);
  }

  /** More input never changes an output that was already due. */
  lemma ResamplePrefix(input: seq<real>, more: seq<real>, ratio: real)
    requires ratio > 0.0
    ensures Resample(input, ratio) <= Resample(input + more, ratio)
  {
    var c := OutputCount(|input|, ratio);
    if c > 0 {
      DueIff(|input|, ratio, c - 1);
      DueIff(|input + more|, ratio, c - 1);
    }
    forall k | 0 <= k < c
      ensures WindowAt(input, ratio, k) == WindowAt(input + more, ratio, k)
    {
      DueIff(|input|, ratio, k);
      SumPrefix(input, more, Start(k, ratio).Floor, Ceil(Start(k, ratio) + ratio));
    }
  }

  /** One turn of the averaging loop: the guard holds exactly while an output is due,
      and the window it reads is the next window of the whole stream. */
  lemma NextWindow(all: seq<real>, base: nat, k: nat, position: real, ratio: real)
    requires ratio > 0.0 && base <= |all|
    requires position == Start(k, ratio) - base as real >= 0.0
    ensures position + ratio <= (|all| - base) as real <==> k < OutputCount(|all|, ratio)
    ensures k < OutputCount(|all|, ratio) ==>
              WindowAt(all, ratio, k) == Window(all[base..], position, ratio)
  {
    DueIff(|all|, ratio, k);
    if k < OutputCount(|all|, ratio) {
      WindowShift(all, base, Start(k, ratio), ratio);
    }
  }

  /** Dropping the consumed samples leaves the carried state of the longer stream. */
  lemma Carry(all: seq<real>, base: nat, position: real, ratio: real)
    requires ratio > 0.0 && base <= |all|
    requires position == Start(OutputCount(|all|, ratio), ratio) - base as real >= 0.0
    ensures 0 <= position.Floor <= |all| - base
    ensures all[base..][position.Floor..] == all[BaseAfter(|all|, ratio)..]
    ensures position - position.Floor as real == PositionAfter(|all|, ratio)
  {
    assert base + position.Floor == BaseAfter(|all|, ratio);
  }

  /** The inner summing loop. */
  method Average(data: seq<real>, position: real, ratio: real) returns (sample: int)
    requires ratio > 0.0 && 0.0 <= position && position + ratio <= |data| as real
    ensures sample == Window(data, position, ratio)
  {
    var start, reach := position.Floor, Ceil(position + ratio);
    var end := if |data| < reach then |data| else reach;
    var sum, index := 0.0, start;
    while index < end
      invariant start <= index <= end <= |data| && sum == Sum(data, start, index)
    {
      sum := sum + data[index];
      index := index + 1;
    }
    var count := if end - start < 1 then 1 else end - start;
    sample := Quantize(sum / count as real);
  }

  class Pcm16Downsampler {
    var ratio: real
    var position: real
    var leftover: seq<real>
    ghost var fed: seq<real>  // every sample received so far

    ghost predicate Valid()
      reads this
    {
      && ratio > 0.0
      && position == PositionAfter(|fed|, ratio)
      && leftover == fed[BaseAfter(|fed|, ratio)..]
    }

    constructor (sampleRate: real)
      requires sampleRate > 0.0
      ensures Valid() && fed == [] && ratio == sampleRate / TARGET_RATE
    {
      ratio := sampleRate / TARGET_RATE;
      position, leftover, fed := 0.0, [], [];
      new;
      OutputCountUnique(0, ratio, 0);
    }

    /** The averaging loop: every window that is due once the stream is `all`. */
    method EmitDue(data: seq<real>, ghost all: seq<real>, ghost base: nat, ghost first: nat)
      returns (output: seq<int>)
      requires ratio > 0.0 && base <= |all| && data == all[base..]
      requires first <= OutputCount(|all|, ratio)
      requires position == Start(first, ratio) - base as real >= 0.0
      modifies this`position
      ensures output == Resample(all, ratio)[first..]
      ensures position == Start(OutputCount(|all|, ratio), ratio) - base as real >= 0.0
    {
      output := [];
      ghost var due, k := Resample(all, ratio), first;
      while position + ratio <= |data| as real
        invariant first <= k <= |due| && position == Start(k, ratio) - base as real >= 0.0
        invariant output == due[first..k]
        decreases |due| - k
      {
        NextWindow(all, base, k, position, ratio);
        var sample := Average(data, position, ratio);
        assert sample == due[k];
        output := output + [sample];
        position := position + ratio;
        k := k + 1;
      }
      NextWindow(all, base, k, position, ratio);
    }

    method Process(channel: seq<real>) returns (output: seq<int>)
      requires Valid()
      modifies this
      ensures Valid() && ratio == old(ratio) && fed == old(fed) + channel
      ensures Resample(old(fed), ratio) + output == Resample(fed, ratio)
      ensures channel != [] ==> 0.0 <= position < 1.0 && |leftover| as real < ratio + 1.0
    {
      output := [];
      if channel != [] {
        var data := leftover + channel;
        ghost var base := BaseAfter(|fed|, ratio);
        ResamplePrefix(fed, channel, ratio);
        fed := fed + channel;
        assert data == fed[base..];
        output := EmitDue(data, fed, base, OutputCount(|old(fed)|, ratio));
        Carry(fed, base, position, ratio);
        CarriedStateBounds(|fed|, ratio);
        var consumed := position.Floor;
        leftover := data[consumed..];
        position := position - consumed as real;
      } else {
        assert fed + channel == fed;
      }
    }
  }

  /** Feeding any cutting of the input, empty blocks included, gives the one-shot answer. */
  method ProcessBlocks(sampleRate: real, blocks: seq<seq<real>>) returns (output: seq<int>)
    requires sampleRate > 0.0
    ensures output == Resample(Flatten(blocks), sampleRate / 16000.0)
    ensures |output| == (|Flatten(blocks)| as real / (sampleRate / 16000.0)).Floor
    ensures forall i :: 0 <= i < |output| ==> -0x8000 <= output[i] <= 0x7fff
  {
    var worklet := new Pcm16Downsampler(sampleRate);
    output := [];
    OutputCountUnique(0, worklet.ratio, 0);
    for i := 0 to |blocks|
      invariant worklet.Valid() && fresh(worklet) && worklet.ratio == sampleRate / TARGET_RATE
      invariant worklet.fed == Flatten(blocks[..i])
      invariant output == Resample(worklet.fed, worklet.ratio)
    {
      var sent := worklet.Process(blocks[i]);
      output := output + sent;
      assert blocks[..i + 1][..i] == blocks[..i];
    }
    assert blocks[..|blocks|] == blocks;
    OutputCountIsFloor(|Flatten(blocks)|, worklet.ratio);
  }
}
