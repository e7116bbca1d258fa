/** The pitch-wheel samples generated for bends and slides. */
module BendRamps {
  import opened Directions
  import opened Score
  import opened MidiEvents

  function Abs(x: int): nat {
    if x < 0 then -x else x
  }

  /** Sample i (from 0) of a gradual bend of n = |from - to| samples: i + 1 units from
      `from` toward `to`, i + 1 steps of duration / n after the start. */
  function BendSample(start: real, duration: real, from: int, to: int, i: nat): BendEventInfo
    requires from != to
  {
    BendEventInfo(start + duration / (Abs(from - to) as real) * ((i + 1) as real),
                  if from < to then from + (i + 1) else from - (i + 1))
  }

  /** The loop of generateGradualBend after its first k passes. */
  function GradualBendUpTo(start: real, duration: real, from: int, to: int, k: nat): (r: seq<BendEventInfo>)
    requires k <= Abs(from - to)
    ensures |r| == k
  {
    if k == 0 then [] else GradualBendUpTo(start, duration, from, to, k - 1) + [BendSample(start, duration, from, to, k - 1)]
  }

  /** generateGradualBend: |from - to| samples stepping one unit at a time from `from`
      toward `to`, evenly spaced over the duration. */
  function GradualBend(start: real, duration: real, from: int, to: int): (r: seq<BendEventInfo>)
    ensures |r| == Abs(from - to)
  {
    GradualBendUpTo(start, duration, from, to, Abs(from - to))
  }

  /** The loop appends the samples in order: entry i of its output is sample i. */
  lemma {:induction false} GradualBendAt(start: real, duration: real, from: int, to: int, k: nat)
    requires k <= Abs(from - to)
    ensures forall i :: 0 <= i < k ==> GradualBendUpTo(start, duration, from, to, k)[i] == BendSample(start, duration, from, to, i)
  {
    if k > 0 {
      GradualBendAt(start, duration, from, to, k - 1);
    }
  }

  /** The ramp reaches its target at the end of the duration. */
  lemma GradualBendReachesTarget(start: real, duration: real, from: int, to: int)
    requires from != to
    ensures var r := GradualBend(start, duration, from, to);
            r[|r| - 1] == BendEventInfo(start + duration, to)
  {
    var n := Abs(from - to);
    GradualBendAt(start, duration, from, to, n);
    assert (n as real) > 0.0;
    assert duration / (n as real) * (n as real) == duration;
  }

  /** Consecutive samples move one unit toward the target, one step of time apart;
      the first sample is one step after the start and one unit from `from`. */
  lemma GradualBendSteps(start: real, duration: real, from: int, to: int)
    ensures var r := GradualBend(start, duration, from, to);
            var step := if from < to then 1 else -1;
            var dt := if from == to then 0.0 else duration / (Abs(from - to) as real);
            && (|r| > 0 ==> r[0] == BendEventInfo(start + dt, from + step))
            && forall i :: 0 <= i < |r| - 1 ==>
                 r[i + 1].amount == r[i].amount + step && r[i + 1].timestamp == r[i].timestamp + dt
  {
    var r := GradualBend(start, duration, from, to);
    GradualBendAt(start, duration, from, to, Abs(from - to));
    if from != to {
      var n := Abs(from - to);
      var dt := duration / (n as real);
      forall i | 0 <= i < |r| - 1 ensures r[i + 1].timestamp == r[i].timestamp + dt {
        assert dt * ((i + 2) as real) == dt * ((i + 1) as real) + dt;
      }
    }
  }

  /** Every sample lies strictly past `from` up to `to`, within the duration when it is
      not negative. */
  lemma GradualBendBounds(start: real, duration: real, from: int, to: int)
    requires duration >= 0.0
    ensures var r := GradualBend(start, duration, from, to);
            forall i :: 0 <= i < |r| ==>
              && (from < to ==> from < r[i].amount <= to)
              && (to < from ==> to <= r[i].amount < from)
              && start <= r[i].timestamp <= start + duration
  {
    var r := GradualBend(start, duration, from, to);
    var n := Abs(from - to);
    GradualBendAt(start, duration, from, to, n);
    forall i | 0 <= i < |r| ensures start <= r[i].timestamp <= start + duration {
      var dt := duration / (n as real);
      assert dt >= 0.0;
      assert dt * ((i + 1) as real) <= dt * (n as real);
      assert dt * (n as real) == duration;
    }
  }

  /** The pitch-wheel value for a bend to the given number of quarter tones. */
  function BendAmount(c: PlayerConstants, quarterTones: nat): int {
    ((c.defaultBend as real) + (quarterTones as real) * c.bendQuarterTone).Floor
  }

  predicate IsPreBend(t: BendType) {
    t == PreBend || t == PreBendAndRelease || t == PreBendAndHold
  }

  predicate IsHold(t: BendType) {
    t == BendAndHold || t == PreBendAndHold
  }

  predicate EndsWithReset(t: BendType) {
    t == PreBend || t == ImmediateRelease || t == NormalBend
  }

  /** The pitch wheel after generateBends: the bent amount for the holding types, the
      release amount for all the others. */
  function NextActivePitchBend(c: PlayerConstants, bend: Bend): int {
    if IsHold(bend.bendType) then BendAmount(c, bend.bentPitch) else BendAmount(c, bend.releasePitch)
  }

  /** The bend up of normalBend and bendAndHold: over a 32nd note, over the note, or
      (bends that stretch over several notes) nothing. */
  function NormalBendRamp(c: PlayerConstants, start: real, duration: real, tempo: real, bend: Bend): seq<BendEventInfo> {
    var bendAmount := BendAmount(c, bend.bentPitch);
    if bend.duration == 0 then GradualBend(start, tempo / 8.0, c.defaultBend, bendAmount)
    else if bend.duration == 1 then GradualBend(start, duration, c.defaultBend, bendAmount)
    else []
  }

  /** The samples generateBends appends, given the pitch wheel left by the previous note. */
  function BendSamples(c: PlayerConstants, start: real, duration: real, tempo: real, bend: Bend, activePitchBend: int): seq<BendEventInfo> {
    var bendAmount := BendAmount(c, bend.bentPitch);
    var releaseAmount := BendAmount(c, bend.releasePitch);
    var t := bend.bendType;
    (if IsPreBend(t) then [BendEventInfo(start, bendAmount)] else [])
    + (if t == NormalBend || t == BendAndHold then NormalBendRamp(c, start, duration, tempo, bend) else [])
    + (if t == BendAndRelease then GradualBend(start, duration / 2.0, c.defaultBend, bendAmount) else [])
    + (if t == PreBendAndRelease then GradualBend(start, duration, bendAmount, releaseAmount)
       else if t == BendAndRelease then GradualBend(start + duration / 2.0, duration / 2.0, bendAmount, releaseAmount)
       else if t == GradualRelease then GradualBend(start, duration, activePitchBend, releaseAmount)
       else [])
    + (if EndsWithReset(t) then [BendEventInfo(start + duration, releaseAmount)] else [])
  }

  /** Whatever the bend type, the last sample generated is the pitch-wheel value the
      player carries over to the next note. */
  lemma BendEndsAtCarriedAmount(c: PlayerConstants, start: real, duration: real, tempo: real, bend: Bend, activePitchBend: int)
    ensures var r := BendSamples(c, start, duration, tempo, bend, activePitchBend);
            |r| > 0 ==> r[|r| - 1].amount == NextActivePitchBend(c, bend)
  {
    var bendAmount := BendAmount(c, bend.bentPitch);
    var releaseAmount := BendAmount(c, bend.releasePitch);
    var r := BendSamples(c, start, duration, tempo, bend, activePitchBend);
    match bend.bendType {
      case PreBendAndRelease =>
        if bendAmount != releaseAmount {
          GradualBendReachesTarget(start, duration, bendAmount, releaseAmount);
        }
      case BendAndHold =>
        if bendAmount != c.defaultBend {
          GradualBendReachesTarget(start, tempo / 8.0, c.defaultBend, bendAmount);
          GradualBendReachesTarget(start, duration, c.defaultBend, bendAmount);
        }
      case BendAndRelease =>
        if bendAmount != releaseAmount {
          GradualBendReachesTarget(start + duration / 2.0, duration / 2.0, bendAmount, releaseAmount);
        } else if bendAmount != c.defaultBend {
          GradualBendReachesTarget(start, duration / 2.0, c.defaultBend, bendAmount);
        }
      case GradualRelease =>
        if activePitchBend != releaseAmount {
          GradualBendReachesTarget(start, duration, activePitchBend, releaseAmount);
        }
      case _ =>
    }
  }

  /** The types that end with a reset sample end with the release amount at the end of the note. */
  lemma ResetClosesNote(c: PlayerConstants, start: real, duration: real, tempo: real, bend: Bend, activePitchBend: int)
    requires EndsWithReset(bend.bendType)
    ensures var r := BendSamples(c, start, duration, tempo, bend, activePitchBend);
            |r| > 0 && r[|r| - 1] == BendEventInfo(start + duration, BendAmount(c, bend.releasePitch))
  {
  }

  /** A normal bend whose bend duration is neither 0 nor 1 adds no ramp: only the reset remains;
      a bend-and-hold of that kind adds nothing at all. */
  lemma LongBendAddsNoRamp(c: PlayerConstants, start: real, duration: real, tempo: real, bend: Bend, activePitchBend: int)
    requires bend.duration != 0 && bend.duration != 1
    ensures bend.bendType == NormalBend ==>
              BendSamples(c, start, duration, tempo, bend, activePitchBend)
              == [BendEventInfo(start + duration, BendAmount(c, bend.releasePitch))]
    ensures bend.bendType == BendAndHold ==> BendSamples(c, start, duration, tempo, bend, activePitchBend) == []
  {
  }

  /** A gradual release that follows a held bend ramps down from the held amount. */
  lemma ReleaseAfterHold(c: PlayerConstants, start: real, duration: real, tempo: real, held: Bend, release: Bend)
    requires IsHold(held.bendType) && release.bendType == GradualRelease
    ensures BendSamples(c, start, duration, tempo, release, NextActivePitchBend(c, held))
            == GradualBend(start, duration, BendAmount(c, held.bentPitch), BendAmount(c, release.releasePitch))
  {
  }

  const SLIDE_OUT_OF_STEPS: int := 5

  function SlideBelowBend(c: PlayerConstants): int {
    ((c.defaultBend as real) - (SLIDE_OUT_OF_STEPS as real) * 2.0 * c.bendQuarterTone).Floor
  }

  function SlideAboveBend(c: PlayerConstants): int {
    ((c.defaultBend as real) + (SLIDE_OUT_OF_STEPS as real) * 2.0 * c.bendQuarterTone).Floor
  }

  /** The amount a slide out of the note bends to. */
  function SlideOutAmount(c: PlayerConstants, s: SlideOutOf): int {
    match s.slideType
    case SlideOutOfLegatoSlide => ((c.defaultBend as real) + (s.steps as real) * 2.0 * c.bendQuarterTone).Floor
    case SlideOutOfShiftSlide => ((c.defaultBend as real) + (s.steps as real) * 2.0 * c.bendQuarterTone).Floor
    case SlideOutOfDownwards => SlideBelowBend(c)
    case SlideOutOfUpwards => SlideAboveBend(c)
  }

  /** The amount a slide into the note starts from; the default for unsupported kinds. */
  function SlideIntoAmount(c: PlayerConstants, t: SlideIntoType): int {
    match t
    case SlideIntoFromBelow => SlideBelowBend(c)
    case SlideIntoFromAbove => SlideAboveBend(c)
    case SlideIntoOther => c.defaultBend
  }

  /** A slide out of the note: a ramp over the second half of the note, then a reset
      to the default at its end. */
  function SlideOutSamples(c: PlayerConstants, start: real, duration: real, note: Note): seq<BendEventInfo> {
    match note.slideOutOf
    case Some(s) =>
      GradualBend(start + duration / 2.0, duration / 2.0, c.defaultBend, SlideOutAmount(c, s))
      + [BendEventInfo(start + duration, c.defaultBend)]
    case None => []
  }

  /** A slide into the note: a ramp back to the default over a 16th note. */
  function SlideIntoSamples(c: PlayerConstants, start: real, tempo: real, note: Note): seq<BendEventInfo> {
    match note.slideInto
    case Some(t) => GradualBend(start, tempo / 4.0, SlideIntoAmount(c, t), c.defaultBend)
    case None => []
  }

  /** The samples generateSlides appends: the slide out of the note, then the slide into it. */
  function SlideSamples(c: PlayerConstants, start: real, duration: real, tempo: real, note: Note): seq<BendEventInfo> {
    SlideOutSamples(c, start, duration, note) + SlideIntoSamples(c, start, tempo, note)
  }

  /** A slide out of the note bends only during the second half of the note and returns
      to the default at its end. */
  lemma SlideOutShape(c: PlayerConstants, start: real, duration: real, tempo: real, note: Note)
    requires note.slideOutOf.Some? && note.slideInto.None? && duration >= 0.0
    ensures var r := SlideSamples(c, start, duration, tempo, note);
            && |r| > 0 && r[|r| - 1] == BendEventInfo(start + duration, c.defaultBend)
            && forall i :: 0 <= i < |r| ==> start + duration / 2.0 <= r[i].timestamp <= start + duration
  {
    var ramp := GradualBend(start + duration / 2.0, duration / 2.0, c.defaultBend, SlideOutAmount(c, note.slideOutOf.value));
    GradualBendBounds(start + duration / 2.0, duration / 2.0, c.defaultBend, SlideOutAmount(c, note.slideOutOf.value));
    var r := SlideSamples(c, start, duration, tempo, note);
    assert r == ramp + [BendEventInfo(start + duration, c.defaultBend)];
  }

  /** An unsupported slide into the note keeps the default amount and adds no sample. */
  lemma UnsupportedSlideIntoIsSilent(c: PlayerConstants, start: real, duration: real, tempo: real, note: Note)
    requires note.slideOutOf.None? && note.slideInto == Some(SlideIntoOther)
    ensures SlideSamples(c, start, duration, tempo, note) == []
  {
  }

  /** A supported slide into the note ends at the default amount a 16th note after the start. */
  lemma SlideIntoReturnsToDefault(c: PlayerConstants, start: real, duration: real, tempo: real, note: Note)
    requires note.slideOutOf.None? && note.slideInto.Some?
    requires SlideIntoAmount(c, note.slideInto.value) != c.defaultBend
    ensures var r := SlideSamples(c, start, duration, tempo, note);
            |r| > 0 && r[|r| - 1] == BendEventInfo(start + tempo / 4.0, c.defaultBend)
  {
    GradualBendReachesTarget(start, tempo / 4.0, SlideIntoAmount(c, note.slideInto.value), c.defaultBend);
    assert SlideSamples(c, start, duration, tempo, note)
           == GradualBend(start, tempo / 4.0, SlideIntoAmount(c, note.slideInto.value), c.defaultBend);
  }
}
