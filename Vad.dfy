/** The voice-activity detector: while it captures the background noise it only records the
    spectrum averages; afterwards a counter bounded to [0, 30] goes up on every frame at or
    above the base level and down on every frame below it, speech is detected while the
    counter is above 5, and the start and stop callbacks fire on the edges of that state. */
module VoiceActivity {
  import opened GameModel

  const CounterMin: int := 0
  const CounterMax: int := 30
  const CounterThresh: int := 5

  /** The callback a frame fires. */
  datatype VoiceEvent = NoEvent | VoiceStart | VoiceStop

  /** The counter update of one frame: up when loud unless at the maximum, down when quiet
      unless at the minimum. */
  function CounterStep(counter: int, loud: bool): (c: int)
    ensures CounterMin <= counter <= CounterMax ==> CounterMin <= c <= CounterMax
    ensures loud ==> c == if counter < CounterMax then counter + 1 else counter
    ensures !loud ==> c == if counter > CounterMin then counter - 1 else counter
  {
    if loud && counter < CounterMax then counter + 1
    else if !loud && counter > CounterMin then counter - 1
    else counter
  }

  /** The callback fired when the new state differs from the previous one (`undefined` at
      first, which differs from both). */
  function Edge(prev: Option<bool>, state: bool): (e: VoiceEvent)
    ensures e != NoEvent <==> prev != Some(state)
    ensures e == VoiceStart <==> state && prev != Some(true)
    ensures e == VoiceStop <==> !state && prev != Some(false)
  {
    if prev != Some(state) then (if state then VoiceStart else VoiceStop) else NoEvent
  }

  /** The counter after a run of frames, each loud or quiet. */
  function Run(counter: int, frames: seq<bool>): int
    decreases |frames|
  {
    if frames == [] then counter else Run(CounterStep(counter, frames[0]), frames[1..])
  }

  /** n frames of the same loudness. */
  function Frames(n: nat, loud: bool): (s: seq<bool>)
    ensures |s| == n && forall i :: 0 <= i < n ==> s[i] == loud
  {
    seq(n, i => loud)
  }

  /** The counter stays in [0, 30] over any run. */
  lemma {:induction false} RunBounded(counter: int, frames: seq<bool>)
    requires CounterMin <= counter <= CounterMax
    ensures CounterMin <= Run(counter, frames) <= CounterMax
    decreases |frames|
  {
    if frames != [] {
      RunBounded(CounterStep(counter, frames[0]), frames[1..]);
    }
  }

  /** n loud frames raise the counter by n, up to 30. */
  lemma {:induction false} LoudRun(counter: int, n: nat)
    requires CounterMin <= counter <= CounterMax
    ensures Run(counter, Frames(n, true)) == if counter + n < CounterMax then counter + n else CounterMax
    decreases n
  {
    if n > 0 {
      assert Frames(n, true)[1..] == Frames(n - 1, true);
      LoudRun(CounterStep(counter, true), n - 1);
    }
  }

  /** n quiet frames lower the counter by n, down to 0. */
  lemma {:induction false} QuietRun(counter: int, n: nat)
    requires CounterMin <= counter <= CounterMax
    ensures Run(counter, Frames(n, false)) == if counter - n > CounterMin then counter - n else CounterMin
    decreases n
  {
    if n > 0 {
      assert Frames(n, false)[1..] == Frames(n - 1, false);
      QuietRun(CounterStep(counter, false), n - 1);
    }
  }

  /** From silence, six loud frames are needed to detect speech, and six suffice. */
  lemma SixLoudFrames()
    ensures Run(0, Frames(6, true)) > CounterThresh
    ensures Run(0, Frames(5, true)) <= CounterThresh
  {
    LoudRun(0, 6);
    LoudRun(0, 5);
  }

  /** From a saturated counter, speech stays detected through 24 quiet frames and ends at the
      25th. */
  lemma HangOver()
    ensures Run(CounterMax, Frames(24, false)) > CounterThresh
    ensures Run(CounterMax, Frames(25, false)) <= CounterThresh
  {
    QuietRun(CounterMax, 24);
    QuietRun(CounterMax, 25);
  }

  /** `filter(val => val)` on the captured averages: the zero averages are dropped. */
  function NonZero(s: seq<real>): (r: seq<real>)
    ensures |r| <= |s|
    ensures forall i :: 0 <= i < |r| ==> r[i] != 0.0
    decreases |s|
  {
    if s == [] then []
    else (if s[0] != 0.0 then [s[0]] else []) + NonZero(s[1..])
  }

  /** The values NonZero keeps are exactly the nonzero values of its input. */
  lemma {:induction false} NonZeroMembers(s: seq<real>)
    ensures forall v :: v in NonZero(s) <==> v in s && v != 0.0
    decreases |s|
  {
    if s != [] {
      NonZeroMembers(s[1..]);
      assert forall v :: v in s <==> v == s[0] || v in s[1..];
    }
  }

  /** `reduce((p, c) => Math.min(p, c), acc)`. */
  function MinFrom(acc: real, s: seq<real>): real
    decreases |s|
  {
    if s == [] then acc else MinFrom(if s[0] < acc then s[0] else acc, s[1..])
  }

  /** The fold is the least of the start value and the values: no larger than any of them,
      and equal to one of them. */
  lemma {:induction false} MinFromLaw(acc: real, s: seq<real>)
    ensures MinFrom(acc, s) <= acc
    ensures forall i :: 0 <= i < |s| ==> MinFrom(acc, s) <= s[i]
    ensures MinFrom(acc, s) == acc || MinFrom(acc, s) in s
    decreases |s|
  {
    if s != [] {
      var acc' := if s[0] < acc then s[0] else acc;
      MinFromLaw(acc', s[1..]);
      forall i | 0 <= i < |s|
        ensures MinFrom(acc, s) <= s[i]
      {
        if i > 0 {
          assert s[i] == s[1..][i - 1];
        }
      }
      assert MinFrom(acc', s[1..]) in s[1..] ==> MinFrom(acc', s[1..]) in s;
    }
  }

  /** The average `init` starts from: the least nonzero captured average (at most 1), or
      the minimum noise level when there is none. */
  function Average(env: seq<real>, minNoise: real): real {
    var f := NonZero(env);
    if |f| > 0 then MinFrom(1.0, f) else minNoise
  }

  /** Raising to the minimum and lowering to the maximum noise level, each only where that
      level is nonzero. */
  function NoiseClamp(b: real, minNoise: real, maxNoise: real): real {
    var b' := if minNoise != 0.0 && b < minNoise then minNoise else b;
    if maxNoise != 0.0 && b' > maxNoise then maxNoise else b'
  }

  /** The base level `init` computes: the average times the multiplier, clamped. */
  function BaseLevel(env: seq<real>, minNoise: real, maxNoise: real, multiplier: real): real {
    NoiseClamp(Average(env, minNoise) * multiplier, minNoise, maxNoise)
  }

  /** With nonzero noise bounds in order, the clamp lands between them, and a value already
      between them is kept; a zero bound leaves that side open. */
  lemma NoiseClampLaw(b: real, minNoise: real, maxNoise: real)
    ensures minNoise != 0.0 && maxNoise != 0.0 && minNoise <= maxNoise ==>
      minNoise <= NoiseClamp(b, minNoise, maxNoise) <= maxNoise
    ensures minNoise <= b <= maxNoise ==> NoiseClamp(b, minNoise, maxNoise) == b
    ensures minNoise == 0.0 && maxNoise == 0.0 ==> NoiseClamp(b, minNoise, maxNoise) == b
  {
  }

  /** The least nonzero average the base level starts from is at most 1 and at most every
      nonzero average captured, and is 1 or one of them. */
  lemma LeastAverage(env: seq<real>)
    requires |NonZero(env)| > 0
    ensures var m := MinFrom(1.0, NonZero(env));
      && m <= 1.0
      && (forall v :: v in env && v != 0.0 ==> m <= v)
      && (m == 1.0 || (m in env && m != 0.0))
  {
    var f := NonZero(env);
    MinFromLaw(1.0, f);
    NonZeroMembers(env);
    forall v | v in env && v != 0.0
      ensures MinFrom(1.0, f) <= v
    {
      var i :| 0 <= i < |f| && f[i] == v;
    }
  }

  /** The detector's state, as `monitor` reads and updates it. */
  class Vad {
    var activityCounter: int
    var vadState: bool
    var prevVadState: Option<bool>
    var isNoiseCapturing: bool
    var envFreqRange: seq<real>
    var baseLevel: real
    var voiceScale: real
    var minNoiseLevel: real
    var maxNoiseLevel: real
    var avgNoiseMultiplier: real

    /** The counter is in range, the detected state is always the threshold test of the
        counter, and a previous state, once recorded, is the current one. */
    predicate Valid()
      reads this
    {
      && CounterMin <= activityCounter <= CounterMax
      && vadState == (activityCounter > CounterThresh)
      && (prevVadState.Some? ==> prevVadState == Some(vadState))
      && voiceScale == 1.0 - baseLevel
    }

    /** The initial fields, from the options' capture duration and noise settings;
        noise is captured when the capture duration is positive. */
    constructor (noiseCaptureDuration: real, minNoiseLevel: real, maxNoiseLevel: real, avgNoiseMultiplier: real)
      ensures Valid()
      ensures activityCounter == 0 && !vadState && prevVadState == None
      ensures isNoiseCapturing == (noiseCaptureDuration > 0.0)
      ensures envFreqRange == [] && baseLevel == 0.0 && voiceScale == 1.0
      ensures this.minNoiseLevel == minNoiseLevel && this.maxNoiseLevel == maxNoiseLevel
      ensures this.avgNoiseMultiplier == avgNoiseMultiplier
    {
      activityCounter := 0;
      vadState := false;
      prevVadState := None;
      isNoiseCapturing := noiseCaptureDuration > 0.0;
      envFreqRange := [];
      baseLevel := 0.0;
      voiceScale := 1.0;
      this.minNoiseLevel := minNoiseLevel;
      this.maxNoiseLevel := maxNoiseLevel;
      this.avgNoiseMultiplier := avgNoiseMultiplier;
    }

    /** `init`, the end of noise capture: the zero averages are dropped, the base level is
        computed from what remains and the voice scale is its complement to 1. */
    method Init()
      requires Valid()
      modifies this
      ensures Valid()
      ensures !isNoiseCapturing
      ensures envFreqRange == NonZero(old(envFreqRange))
      ensures baseLevel == BaseLevel(old(envFreqRange), minNoiseLevel, maxNoiseLevel, avgNoiseMultiplier)
      ensures voiceScale == 1.0 - baseLevel
      ensures activityCounter == old(activityCounter) && vadState == old(vadState)
      ensures prevVadState == old(prevVadState)
      ensures minNoiseLevel == old(minNoiseLevel) && maxNoiseLevel == old(maxNoiseLevel)
      ensures avgNoiseMultiplier == old(avgNoiseMultiplier)
    {
      isNoiseCapturing := false;
      ghost var env := envFreqRange;
      envFreqRange := NonZero(envFreqRange);
      var average := if |envFreqRange| > 0 then MinFrom(1.0, envFreqRange) else minNoiseLevel;
      assert average == Average(env, minNoiseLevel);
      var level := average * avgNoiseMultiplier;
      if minNoiseLevel != 0.0 && level < minNoiseLevel {
        level := minNoiseLevel;
      }
      if maxNoiseLevel != 0.0 && level > maxNoiseLevel {
        level := maxNoiseLevel;
      }
      baseLevel := level;
      voiceScale := 1.0 - baseLevel;
    }

    /** `monitor` for one frame whose spectrum average is `average`: during noise capture the
        average is only recorded; otherwise the counter and the detected state are updated,
        and the callback for an edge is returned. */
    method Monitor(average: real) returns (event: VoiceEvent)
      requires Valid()
      modifies this
      ensures Valid()
      ensures isNoiseCapturing == old(isNoiseCapturing) && baseLevel == old(baseLevel)
      ensures voiceScale == old(voiceScale) && minNoiseLevel == old(minNoiseLevel)
      ensures maxNoiseLevel == old(maxNoiseLevel) && avgNoiseMultiplier == old(avgNoiseMultiplier)
      ensures old(isNoiseCapturing) ==>
        && envFreqRange == old(envFreqRange) + [average]
        && activityCounter == old(activityCounter) && vadState == old(vadState)
        && prevVadState == old(prevVadState) && event == NoEvent
      ensures !old(isNoiseCapturing) ==>
        && envFreqRange == old(envFreqRange)
        && activityCounter == CounterStep(old(activityCounter), average >= baseLevel)
        && vadState == (activityCounter > CounterThresh)
        && event == Edge(old(prevVadState), vadState)
        && prevVadState == Some(vadState)
    {
      event := NoEvent;
      if isNoiseCapturing {
        envFreqRange := envFreqRange + [average];
        return;
      }
      if average >= baseLevel && activityCounter < CounterMax {
        activityCounter := activityCounter + 1;
      } else if average < baseLevel && activityCounter > CounterMin {
        activityCounter := activityCounter - 1;
      }
      vadState := activityCounter > CounterThresh;
      if prevVadState != Some(vadState) {
        event := if vadState then VoiceStart else VoiceStop;
        prevVadState := Some(vadState);
      }
    }
  }

  /** The first frame after noise capture always fires a callback, since the previous state
      is still undefined. */
  lemma FirstFrameFires(state: bool)
    ensures Edge(None, state) != NoEvent
  {
  }

  /** After a callback, the same state fires nothing more: callbacks alternate between start
      and stop. */
  lemma EdgesAlternate(prev: Option<bool>, s1: bool, s2: bool)
    requires Edge(prev, s1) != NoEvent
    ensures Edge(Some(s1), s2) != NoEvent <==> s2 != s1
    ensures Edge(Some(s1), s2) != NoEvent ==> Edge(Some(s1), s2) != Edge(prev, s1)
  {
  }
}
