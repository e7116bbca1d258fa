/** Tempo lookup and the durations derived from it (all in milliseconds). */
module Timing {
  import opened Directions
  import opened Score
  import opened MidiEvents

  /** The test getCurrentTempoMarker applies to each marker: system and position are
      compared separately, not as a location, and alterations of pace are skipped. */
  predicate MarkerApplies(m: TempoMarker, currentSystemIndex: nat, positionIndex: nat) {
    m.system <= currentSystemIndex && m.position <= positionIndex && !m.isAlterationOfPace
  }

  /** The index of the last marker, in list order, that applies; None if none does. */
  function LastApplyingMarker(markers: seq<TempoMarker>, currentSystemIndex: nat, positionIndex: nat): (r: Option<nat>)
    ensures r.None? <==> forall j :: 0 <= j < |markers| ==> !MarkerApplies(markers[j], currentSystemIndex, positionIndex)
    ensures r.Some? ==> r.value < |markers| && MarkerApplies(markers[r.value], currentSystemIndex, positionIndex)
    ensures r.Some? ==> forall j :: r.value < j < |markers| ==> !MarkerApplies(markers[j], currentSystemIndex, positionIndex)
  {
    if markers == [] then None
    else if MarkerApplies(markers[|markers| - 1], currentSystemIndex, positionIndex) then Some(|markers| - 1)
    else LastApplyingMarker(markers[..|markers| - 1], currentSystemIndex, positionIndex)
  }

  /** A marker earlier in the score by location does not apply when its position index
      exceeds the queried one, even in a later system. */
  lemma ComponentWiseMarkerTest()
    ensures var m := TempoMarker(0, 10, 90, 1, false);
            Before(SystemLocation(m.system, m.position), SystemLocation(1, 5)) && !MarkerApplies(m, 1, 5)
  {
  }

  /** Milliseconds per quarter note at the given beats per minute and beat type. */
  function QuarterMillis(c: PlayerConstants, bpm: Positive, beatType: Positive): (t: real)
    ensures t > 0.0
    ensures t * (bpm as real) * (beatType as real) == 60000.0 * (c.quarter as real)
  {
    60.0 / (bpm as real) * 1000.0 * ((c.quarter as real) / (beatType as real))
  }

  /** getCurrentTempo: the quarter-note length set by the active marker, or by the
      default tempo when no marker applies. */
  function CurrentTempo(c: PlayerConstants, markers: seq<TempoMarker>, currentSystemIndex: nat, positionIndex: nat): (t: real)
    ensures t > 0.0
    ensures LastApplyingMarker(markers, currentSystemIndex, positionIndex).None? ==>
              t == QuarterMillis(c, c.defaultBeatsPerMinute, c.defaultBeatType)
    ensures LastApplyingMarker(markers, currentSystemIndex, positionIndex).Some? ==>
              var m := markers[LastApplyingMarker(markers, currentSystemIndex, positionIndex).value];
              t == QuarterMillis(c, m.beatsPerMinute, m.beatType)
  {
    match LastApplyingMarker(markers, currentSystemIndex, positionIndex)
    case None => QuarterMillis(c, c.defaultBeatsPerMinute, c.defaultBeatType)
    case Some(i) => QuarterMillis(c, markers[i].beatsPerMinute, markers[i].beatType)
  }

  /** At 120 beats per minute in quarter notes a quarter lasts half a second. */
  lemma HalfSecondQuarter(c: PlayerConstants)
    ensures QuarterMillis(c, 120, c.quarter) == 500.0
  {
    var q := c.quarter as real;
    assert q / q == 1.0;
  }

  /** calculateNoteDuration: the position's length in quarter notes times the tempo. */
  function NoteDuration(c: PlayerConstants, markers: seq<TempoMarker>, currentSystemIndex: nat, pos: Position): (d: real)
    ensures d >= 0.0
    ensures pos.beats > 0.0 ==> d > 0.0
  {
    (pos.beats as real) * CurrentTempo(c, markers, currentSystemIndex, pos.position)
  }

  /** The length of a whole bar of the time signature at the given quarter-note length. */
  function BarLength(tempo: real, ts: TimeSignature): (r: real)
    ensures tempo >= 0.0 ==> r >= 0.0
  {
    var beat := tempo * 4.0 / (ts.beatAmount as real);
    assert tempo >= 0.0 ==> beat >= 0.0;
    beat * (ts.beatsPerMeasure as real)
  }

  /** getWholeRestDuration: a whole rest alone in its bar lasts the whole bar of the
      preceding barline's time signature, otherwise it keeps its own duration. */
  function WholeRestDuration(tempo: real, isOnlyPositionInBar: bool, precedingBarline: Barline, originalDuration: real): (d: real)
    ensures !isOnlyPositionInBar ==> d == originalDuration
    ensures isOnlyPositionInBar ==> d == BarLength(tempo, precedingBarline.timeSignature)
  {
    if !isOnlyPositionInBar then originalDuration
    else
      var beatDuration := precedingBarline.timeSignature.beatAmount as real;
      var duration := tempo * 4.0 / beatDuration;
      duration * (precedingBarline.timeSignature.beatsPerMeasure as real)
  }

  /** A lone whole rest in 4/4 at 120 quarter notes per minute lasts two seconds, in 3/4 one and a half. */
  lemma WholeRestExamples(c: PlayerConstants, b: Barline)
    ensures b.timeSignature.beatAmount == 4 && b.timeSignature.beatsPerMeasure == 4 ==>
              WholeRestDuration(QuarterMillis(c, 120, c.quarter), true, b, 250.0) == 2000.0
    ensures b.timeSignature.beatAmount == 4 && b.timeSignature.beatsPerMeasure == 3 ==>
              WholeRestDuration(QuarterMillis(c, 120, c.quarter), true, b, 250.0) == 1500.0
  {
    HalfSecondQuarter(c);
  }

  /** The length of one metronome pulse: the bar's beats divided among the pulses
      with integer division. */
  function PulseDuration(tempo: real, ts: TimeSignature): real
  {
    tempo * 4.0 / (ts.beatAmount as real) * ((ts.beatsPerMeasure / ts.pulses) as real)
  }

  /** The pulses of a bar fill it exactly when the pulse count divides the beat count;
      otherwise they fall short of the bar. */
  lemma PulsesFillBar(tempo: real, ts: TimeSignature)
    requires tempo > 0.0
    ensures (ts.pulses as real) * PulseDuration(tempo, ts) <= BarLength(tempo, ts)
    ensures (ts.pulses as real) * PulseDuration(tempo, ts) == BarLength(tempo, ts) <==> ts.beatsPerMeasure % ts.pulses == 0
  {
    var unit := tempo * 4.0 / (ts.beatAmount as real);
    assert unit > 0.0;
    var q := ts.beatsPerMeasure / ts.pulses;
    assert ts.pulses * q + ts.beatsPerMeasure % ts.pulses == ts.beatsPerMeasure;
    assert (ts.pulses as real) * (q as real) == (ts.pulses * q) as real;
    assert PulseDuration(tempo, ts) == unit * (q as real);
    assert BarLength(tempo, ts) == unit * (ts.beatsPerMeasure as real);
    assert (ts.pulses as real) * PulseDuration(tempo, ts) == unit * ((ts.pulses * q) as real);
  }

  /** Seven eighths with three pulses: each pulse lasts two eighths, so the metronome
      covers only six of the seven. */
  lemma UnevenPulses()
    ensures PulseDuration(500.0, TimeSignature(7, 8, 3)) == 500.0
    ensures 3.0 * PulseDuration(500.0, TimeSignature(7, 8, 3)) < BarLength(500.0, TimeSignature(7, 8, 3))
  {
  }

  /** C++ conversion of a double to int: truncation toward zero. */
  function TruncateToInt(x: real): (n: int)
    ensures x >= 0.0 ==> n >= 0 && (n as real) <= x < (n as real) + 1.0
    ensures x < 0.0 ==> n <= 0 && (n as real) - 1.0 < x <= (n as real)
  {
    if x >= 0.0 then x.Floor else -((-x).Floor)
  }
}
