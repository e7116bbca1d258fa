/** The MIDI player's event generation as the player runs it: a class whose methods
    loop over the score, append to the event list and update the player's fields,
    each proved to produce what the functions of EventGeneration, BendRamps,
    MetronomeTicks and Timing describe. */
module Player {
  import opened Directions
  import opened Score
  import opened MidiEvents
  import opened Timing
  import opened Pitch
  import opened BendRamps
  import opened MetronomeTicks
  import opened EventGeneration

  /** The appended events of a system's metronome pass, bar by bar: the events of one
      bar arrive two at a time, a tick and its stop note. */
  lemma BarTicksPrefix(c: PlayerConstants, systemIndex: nat, start: real, pulse: real, bar: Barline, j: nat)
    requires j < bar.timeSignature.pulses
    ensures var r := BarTicks(c, systemIndex, start, pulse, bar);
            r[..2 * (j + 1)] == r[..2 * j]
              + [MidiEvent(c.metronomeChannel, TickTime(start, pulse, j), bar.position, systemIndex, Metronome(pulse, j == 0)),
                 MidiEvent(c.metronomeChannel, TickTime(start, pulse, j + 1), bar.position, systemIndex, StopNote(c.metronomePitch))]
  {
    var r := BarTicks(c, systemIndex, start, pulse, bar);
    assert r[2 * j] == MidiEvent(c.metronomeChannel, TickTime(start, pulse, j), bar.position, systemIndex, Metronome(pulse, j == 0));
    assert r[2 * j + 1] == MidiEvent(c.metronomeChannel, TickTime(start, pulse, j + 1), bar.position, systemIndex,
                                     StopNote(c.metronomePitch));
  }

  lemma AppendAssoc<T>(a: seq<T>, b: seq<T>, c: seq<T>)
    ensures a + b + c == a + (b + c)
  {
  }

  /** Runs appended one after the other are appended as one run. */
  lemma AppendFourRuns<T>(s: seq<T>, a: seq<T>, b: seq<T>, c: seq<T>, d: seq<T>)
    ensures s + a + b + c + d == s + (a + b + c + d)
  {
    assert s + a + b == s + (a + b);
    assert s + (a + b) + c == s + (a + b + c);
  }

  lemma AppendRuns<T>(s: seq<T>, a: seq<T>, b: seq<T>, c: seq<T>, d: seq<T>, e: seq<T>)
    ensures s + a + b + c + d + e == s + (a + b + c + d + e)
  {
    assert s + a + b == s + (a + b);
    assert s + (a + b) + c == s + (a + b + c);
    assert s + (a + b + c) + d == s + (a + b + c + d);
  }

  /** The pulse length generateMetronome computes in two steps is PulseDuration. */
  lemma PulseInSteps(tempo: real, ts: TimeSignature, duration: real)
    requires duration == tempo * 4.0 / (ts.beatAmount as real)
    ensures duration * ((ts.beatsPerMeasure / ts.pulses) as real) == PulseDuration(tempo, ts)
  {
  }

  /** One pass of the tremolo loop appends the two events of TremoloPass. */
  lemma TremoloStep(ctx: VoiceContext, pos: Position, start: real, sub: real, k: nat, pitch: int, other: int,
                    muted: bool, velocity: Velocity, events: seq<MidiEvent>, before: seq<MidiEvent>)
    requires before == events + TremoloEvents(ctx, pos, start, sub, k, pitch, other, muted, velocity)
    ensures var t := start + (k as real) * sub;
            before + [Ev(ctx, pos, t, StopNote(Alternate(pitch, other, k)))]
                   + [Ev(ctx, pos, t, PlayNote(sub, Alternate(pitch, other, k + 1), muted, velocity))]
            == events + TremoloEvents(ctx, pos, start, sub, k + 1, pitch, other, muted, velocity)
  {
    var pass := TremoloPass(ctx, pos, start, sub, pitch, other, muted, velocity, k);
    var done := TremoloEvents(ctx, pos, start, sub, k, pitch, other, muted, velocity);
    assert before + [pass[0]] + [pass[1]] == events + (done + pass);
  }

  /** Two swaps restore the pitch pair. */
  lemma AlternateTwice(pitch: int, other: int, k: nat)
    ensures Alternate(pitch, other, k + 2) == Alternate(pitch, other, k)
  {
  }

  /** One more pass of the note loop: the arpeggio shift, the pitch wheel the note's bend
      leaves, and the note's events appended. */
  lemma NotesUpToStep(ctx: VoiceContext, emit: NoteEmitter, j: nat, pos: Position, tempo: real, notes: seq<Note>,
                      st0: NoteState, k: nat, before: NoteState, after: NoteState)
    requires k < |notes| && before == NotesUpTo(ctx, emit, j, pos, tempo, notes, st0, k)
    requires after.startTime == if HasArpeggio(pos) then before.startTime + ctx.c.arpeggioOffset else before.startTime
    requires after.duration == if HasArpeggio(pos) then before.duration - ctx.c.arpeggioOffset else before.duration
    requires after.pitchBend == if notes[k].bend.Some? then NextActivePitchBend(ctx.c, notes[k].bend.value) else before.pitchBend
    requires after.events == before.events + emit(ctx, NoteCall(j, pos, tempo, after.startTime, after.duration,
                                                                 before.pitchBend, notes[k]))
    ensures NotesUpTo(ctx, emit, j, pos, tempo, notes, st0, k + 1) == after
  {
  }

  /** Every system has its barlines: the start bar and, last, the end bar. */
  predicate BarlinesPresent(score: Score) {
    forall s :: 0 <= s < |score.systems| ==> |score.systems[s].barlines| > 0
  }

  /** The notes of every position of a voice of a playable score lie on its staff's guitar. */
  lemma ContextFits(c: PlayerConstants, q: ScoreQueries, score: Score, currentSystemIndex: nat, systemIndex: nat,
                    staffIndex: nat, voice: nat)
    requires systemIndex < |score.systems| && PlayableScore(score)
    requires staffIndex < |score.systems[systemIndex].staves| && voice < NUM_STAFF_VOICES
    ensures var ctx := ContextOf(c, q, score, currentSystemIndex, systemIndex, staffIndex, voice);
            forall j :: 0 <= j < |ctx.positions| ==> NotesFit(ctx.guitar, ctx.positions[j].notes)
  {
    var system := score.systems[systemIndex];
    assert SystemFits(score.guitars, system);
    assert StaffFits(score.guitars[staffIndex], system.staves[staffIndex]);
  }

  /** One pass of the generation loop of run for system k: its metronome, then its events,
      from the time the systems before it ended, with the current system index k; the
      identity past the last system. */
  function SystemPassOf(c: PlayerConstants, q: ScoreQueries, score: Score): (SystemState, nat) -> SystemState
    requires PlayableScore(score) && BarlinesPresent(score)
  {
    (s: SystemState, k: nat) =>
      if k < |score.systems|
      then SystemEvents(c, q, score, PlayerNoteEvents, k, k, s.endTime, s.pitchBend,
                        s.events + MetronomeEvents(c, score.tempoMarkers, k, k, s.endTime, score.systems[k]))
      else s
  }

  /** The generation loop of run after its first n systems, from time 0 and an empty list. */
  function ScoreEventsUpTo(c: PlayerConstants, q: ScoreQueries, score: Score, pitchBend0: int, n: nat): SystemState
    requires PlayableScore(score) && BarlinesPresent(score) && n <= |score.systems|
  {
    Iterate(SystemPassOf(c, q, score), SystemState(0.0, pitchBend0, []), n)
  }

  lemma PrefixOfAppend<T>(a: seq<T>, t: seq<T>, b: seq<T>)
    requires a + t <= b
    ensures a <= b
  {
    assert a == (a + t)[..|a|];
  }

  /** Each system only appends to the event list and does not move the time stamp back. */
  lemma SystemPassExtends(c: PlayerConstants, q: ScoreQueries, score: Score)
    requires PlayableScore(score) && BarlinesPresent(score)
    ensures Extends(SystemPassOf(c, q, score), |score.systems|)
  {
    var step := SystemPassOf(c, q, score);
    forall s: SystemState, k: nat | k < |score.systems|
      ensures step(s, k).endTime >= s.endTime && s.events <= step(s, k).events
    {
      var ticks := MetronomeEvents(c, score.tempoMarkers, k, k, s.endTime, score.systems[k]);
      SystemEndsAfterStart(c, q, score, PlayerNoteEvents, k, k, s.endTime, s.pitchBend, s.events + ticks);
      PrefixOfAppend(s.events, ticks, step(s, k).events);
    }
  }

  /** The time stamp the run loop hands from system to system is never negative. */
  lemma ScoreEventsGrow(c: PlayerConstants, q: ScoreQueries, score: Score, pitchBend0: int, n: nat)
    requires PlayableScore(score) && BarlinesPresent(score) && n <= |score.systems|
    ensures 0.0 <= ScoreEventsUpTo(c, q, score, pitchBend0, n).endTime
  {
    SystemPassExtends(c, q, score);
    IterateExtends(SystemPassOf(c, q, score), SystemState(0.0, pitchBend0, []), n, |score.systems|);
  }

  /** One more pass of a loop is its step on the state after the passes before. */
  lemma IterateNext<S>(step: (S, nat) -> S, s0: S, j: nat, before: S)
    requires before == Iterate(step, s0, j)
    ensures Iterate(step, s0, j + 1) == step(before, j)
  {
  }

  class MidiPlayer {
    const c: PlayerConstants
    const q: ScoreQueries
    /** The score the caret points at. */
    const score: Score
    var currentSystemIndex: nat
    /** The pitch wheel left by the last bend, read by a gradual release. */
    var activePitchBend: int

    /** The player starts at the first system with the pitch wheel at its default; the
        harmonic table it fills is the constant HARMONIC_PITCHES. */
    constructor (c: PlayerConstants, q: ScoreQueries, score: Score)
      ensures this.c == c && this.q == q && this.score == score
      ensures currentSystemIndex == 0 && activePitchBend == c.defaultBend
    {
      this.c := c;
      this.q := q;
      this.score := score;
      currentSystemIndex := 0;
      activePitchBend := c.defaultBend;
    }

    /** getCurrentTempoMarker: the scan keeps the last marker that applies; the index of
        that marker in the score's list, None for the null pointer. */
    method GetCurrentTempoMarker(positionIndex: nat) returns (r: Option<nat>)
      ensures r == LastApplyingMarker(score.tempoMarkers, currentSystemIndex, positionIndex)
    {
      var markers := score.tempoMarkers;
      r := None;
      for i := 0 to |markers|
        invariant r == LastApplyingMarker(markers[..i], currentSystemIndex, positionIndex)
      {
        assert markers[..i + 1][..i] == markers[..i];
        if MarkerApplies(markers[i], currentSystemIndex, positionIndex) {
          r := Some(i);
        }
      }
      assert markers[..|markers|] == markers;
    }

    /** getCurrentTempo: the quarter-note length in milliseconds. */
    method GetCurrentTempo(positionIndex: nat) returns (t: real)
      ensures t == CurrentTempo(c, score.tempoMarkers, currentSystemIndex, positionIndex)
    {
      var marker := GetCurrentTempoMarker(positionIndex);
      var bpm: Positive := c.defaultBeatsPerMinute;
      var beatType: Positive := c.defaultBeatType;
      if marker.Some? {
        bpm := score.tempoMarkers[marker.value].beatsPerMinute;
        beatType := score.tempoMarkers[marker.value].beatType;
      }
      t := 60.0 / (bpm as real) * 1000.0 * ((c.quarter as real) / (beatType as real));
    }

    method CalculateNoteDuration(pos: Position) returns (d: real)
      ensures d == NoteDuration(c, score.tempoMarkers, currentSystemIndex, pos)
    {
      var tempo := GetCurrentTempo(pos.position);
      d := (pos.beats as real) * tempo;
    }

    /** getWholeRestDuration for position j of a voice of a staff of the system. */
    method GetWholeRestDuration(systemIndex: nat, staffIndex: nat, voice: nat, j: nat, pos: Position,
                                originalDuration: real) returns (d: real)
      ensures d == WholeRestDuration(CurrentTempo(c, score.tempoMarkers, currentSystemIndex, pos.position),
                                     q.isOnlyPositionInBar(systemIndex, staffIndex, voice, j),
                                     q.precedingBarline(systemIndex, pos.position), originalDuration)
    {
      var prevBarline := q.precedingBarline(systemIndex, pos.position);
      if !q.isOnlyPositionInBar(systemIndex, staffIndex, voice, j) {
        return originalDuration;
      }
      var ts := prevBarline.timeSignature;
      var tempo := GetCurrentTempo(pos.position);
      var beatDuration := ts.beatAmount as real;
      d := tempo * 4.0 / beatDuration;
      d := d * (ts.beatsPerMeasure as real);
    }

    /** generateGradualBend: appends the ramp from `from` to `to`. The source computes the
        step once before the loop, dividing by zero when there are no samples; the loop
        then does not run, so the step is taken as 0 there. */
    method GenerateGradualBend(bends: seq<BendEventInfo>, startTime: real, duration: real, from: int, to: int)
      returns (r: seq<BendEventInfo>)
      ensures r == bends + GradualBend(startTime, duration, from, to)
    {
      var numBendEvents := Abs(from - to);
      var bendEventDuration := if numBendEvents > 0 then duration / (numBendEvents as real) else 0.0;
      r := bends;
      var i := 1;
      while i <= numBendEvents
        invariant 1 <= i <= numBendEvents + 1
        invariant r == bends + GradualBendUpTo(startTime, duration, from, to, i - 1)
      {
        var timestamp := startTime + bendEventDuration * (i as real);
        ghost var before := r;
        assert bendEventDuration == duration / (Abs(from - to) as real);
        assert timestamp == BendSample(startTime, duration, from, to, i - 1).timestamp;
        if from < to {
          r := r + [BendEventInfo(timestamp, from + i)];
        } else {
          r := r + [BendEventInfo(timestamp, from - i)];
        }
        assert r == before + [BendSample(startTime, duration, from, to, i - 1)];
        assert bends + GradualBendUpTo(startTime, duration, from, to, i)
               == bends + GradualBendUpTo(startTime, duration, from, to, i - 1) + [BendSample(startTime, duration, from, to, i - 1)];
        i := i + 1;
      }
    }

    /** generateBends: appends the note's bend samples and leaves the pitch wheel the next
        note's gradual release starts from. */
    method GenerateBends(bends: seq<BendEventInfo>, startTime: real, duration: real, currentTempo: real, bend: Bend)
      returns (r: seq<BendEventInfo>)
      modifies this`activePitchBend
      ensures r == bends + BendSamples(c, startTime, duration, currentTempo, bend, old(activePitchBend))
      ensures activePitchBend == NextActivePitchBend(c, bend)
    {
      var t := bend.bendType;
      var bendAmount := BendAmount(c, bend.bentPitch);
      var releaseAmount := BendAmount(c, bend.releasePitch);
      ghost var preBend: seq<BendEventInfo> := [];
      ghost var ramp: seq<BendEventInfo> := [];
      ghost var rise: seq<BendEventInfo> := [];
      ghost var release: seq<BendEventInfo> := [];
      ghost var reset: seq<BendEventInfo> := [];
      r := bends;
      if t == PreBend || t == PreBendAndRelease || t == PreBendAndHold {
        preBend := [BendEventInfo(startTime, bendAmount)];
        r := r + [BendEventInfo(startTime, bendAmount)];
      }
      ghost var r1 := r;
      if t == NormalBend || t == BendAndHold {
        ramp := NormalBendRamp(c, startTime, duration, currentTempo, bend);
        if bend.duration == 0 {
          r := GenerateGradualBend(r, startTime, currentTempo / 8.0, c.defaultBend, bendAmount);
        } else if bend.duration == 1 {
          r := GenerateGradualBend(r, startTime, duration, c.defaultBend, bendAmount);
        } else {
          assert r == r + [];
        }
      }
      ghost var r2 := r;
      if t == BendAndRelease {
        rise := GradualBend(startTime, duration / 2.0, c.defaultBend, bendAmount);
        r := GenerateGradualBend(r, startTime, duration / 2.0, c.defaultBend, bendAmount);
      }
      ghost var r3 := r;
      if t == PreBendAndRelease {
        release := GradualBend(startTime, duration, bendAmount, releaseAmount);
        r := GenerateGradualBend(r, startTime, duration, bendAmount, releaseAmount);
      } else if t == BendAndRelease {
        release := GradualBend(startTime + duration / 2.0, duration / 2.0, bendAmount, releaseAmount);
        r := GenerateGradualBend(r, startTime + duration / 2.0, duration / 2.0, bendAmount, releaseAmount);
      } else if t == GradualRelease {
        release := GradualBend(startTime, duration, activePitchBend, releaseAmount);
        r := GenerateGradualBend(r, startTime, duration, activePitchBend, releaseAmount);
      }
      ghost var r4 := r;
      if t == PreBend || t == ImmediateRelease || t == NormalBend {
        reset := [BendEventInfo(startTime + duration, releaseAmount)];
        r := r + [BendEventInfo(startTime + duration, releaseAmount)];
      }
      assert r1 == bends + preBend && r2 == r1 + ramp && r3 == r2 + rise && r4 == r3 + release && r == r4 + reset;
      assert BendSamples(c, startTime, duration, currentTempo, bend, old(activePitchBend))
             == preBend + ramp + rise + release + reset;
      AppendRuns(bends, preBend, ramp, rise, release, reset);
      if t == BendAndHold || t == PreBendAndHold {
        activePitchBend := bendAmount;
      } else {
        activePitchBend := releaseAmount;
      }
    }

    /** generateSlides: appends the samples of the note's slide out of and slide into. */
    method GenerateSlides(bends: seq<BendEventInfo>, startTime: real, noteDuration: real, currentTempo: real, note: Note)
      returns (r: seq<BendEventInfo>)
      ensures r == bends + SlideSamples(c, startTime, noteDuration, currentTempo, note)
    {
      r := bends;
      if note.slideOutOf.Some? {
        var s := note.slideOutOf.value;
        var bendAmount := c.defaultBend;
        match s.slideType {
          case SlideOutOfLegatoSlide =>
            bendAmount := ((c.defaultBend as real) + (s.steps as real) * 2.0 * c.bendQuarterTone).Floor;
          case SlideOutOfShiftSlide =>
            bendAmount := ((c.defaultBend as real) + (s.steps as real) * 2.0 * c.bendQuarterTone).Floor;
          case SlideOutOfDownwards =>
            bendAmount := SlideBelowBend(c);
          case SlideOutOfUpwards =>
            bendAmount := SlideAboveBend(c);
        }
        assert bendAmount == SlideOutAmount(c, s);
        var slideDuration := noteDuration / 2.0;
        r := GenerateGradualBend(r, startTime + slideDuration, slideDuration, c.defaultBend, bendAmount);
        r := r + [BendEventInfo(startTime + noteDuration, c.defaultBend)];
      }
      assert r == bends + SlideOutSamples(c, startTime, noteDuration, note);
      ghost var r1 := r;
      if note.slideInto.Some? {
        var bendAmount := c.defaultBend;
        match note.slideInto.value {
          case SlideIntoFromBelow => bendAmount := SlideBelowBend(c);
          case SlideIntoFromAbove => bendAmount := SlideAboveBend(c);
          case SlideIntoOther =>
        }
        assert bendAmount == SlideIntoAmount(c, note.slideInto.value);
        var slideDuration := currentTempo / 4.0;
        r := GenerateGradualBend(r, startTime, slideDuration, bendAmount, c.defaultBend);
      }
      assert r == r1 + SlideIntoSamples(c, startTime, currentTempo, note);
      assert r == bends + (SlideOutSamples(c, startTime, noteDuration, note) + SlideIntoSamples(c, startTime, currentTempo, note));
    }

    /** The pulse loop of generateMetronome for one bar: a tick each pulse, the bar's first
        one accented, and a stop note a pulse later; the cursor ends after all the pulses. */
    method GenerateBarTicks(systemIndex: nat, barline: Barline, duration: real, startTime: real,
                            events: seq<MidiEvent>) returns (r: seq<MidiEvent>, time: real)
      ensures r == events + BarTicks(c, systemIndex, startTime, duration, barline)
      ensures time == TickTime(startTime, duration, barline.timeSignature.pulses)
    {
      r := events;
      time := startTime;
      for j := 0 to barline.timeSignature.pulses
        invariant r == events + BarTicks(c, systemIndex, startTime, duration, barline)[..2 * j]
        invariant time == TickTime(startTime, duration, j)
      {
        BarTicksPrefix(c, systemIndex, startTime, duration, barline, j);
        r := r + [MidiEvent(c.metronomeChannel, time, barline.position, systemIndex, Metronome(duration, j == 0))];
        time := time + duration;
        r := r + [MidiEvent(c.metronomeChannel, time, barline.position, systemIndex, StopNote(c.metronomePitch))];
        assert time == TickTime(startTime, duration, j + 1);
      }
      ghost var ticks := BarTicks(c, systemIndex, startTime, duration, barline);
      assert ticks[..2 * barline.timeSignature.pulses] == ticks;
    }

    /** generateMetronome: appends the ticks of every bar but the end bar, then the stop
        note at the end bar that marks the end of the system for the repeat logic. */
    method GenerateMetronome(systemIndex: nat, startTime: real, events: seq<MidiEvent>) returns (r: seq<MidiEvent>)
      requires systemIndex < |score.systems| && |score.systems[systemIndex].barlines| > 0
      ensures r == events + MetronomeEvents(c, score.tempoMarkers, currentSystemIndex, systemIndex, startTime,
                                            score.systems[systemIndex])
    {
      var system := score.systems[systemIndex];
      var barlines := system.barlines[..|system.barlines| - 1];
      var time := startTime;
      r := events;
      for i := 0 to |barlines|
        invariant var t := BarsTicks(c, score.tempoMarkers, currentSystemIndex, systemIndex, startTime, barlines[..i]);
                  r == events + t.events && time == t.endTime
      {
        var barline := barlines[i];
        var ts := barline.timeSignature;
        var tempo := GetCurrentTempo(barline.position);
        var duration := tempo * 4.0 / (ts.beatAmount as real);
        PulseInSteps(tempo, ts, duration);
        duration := duration * ((ts.beatsPerMeasure / ts.pulses) as real);
        ghost var before := BarsTicks(c, score.tempoMarkers, currentSystemIndex, systemIndex, startTime, barlines[..i]);
        ghost var r0 := r;
        r, time := GenerateBarTicks(systemIndex, barline, duration, time, r);
        assert barlines[..i + 1][..i] == barlines[..i];
        ghost var bar := BarTicks(c, systemIndex, before.endTime, duration, barline);
        assert r == r0 + bar;
        AppendAssoc(events, before.events, bar);
      }
      assert barlines[..|barlines|] == barlines;
      r := r + [MidiEvent(c.metronomeChannel, time, system.barlines[|system.barlines| - 1].position, systemIndex,
                          StopNote(c.metronomePitch))];
    }

    /** The tremolo loop of generateEventsForSystem: at each 32nd note, stop the sounding
        pitch, swap it with the other one and play that; none when the count is negative. */
    method GenerateTremolo(ctx: VoiceContext, pos: Position, startTime: real, tremPickNoteDuration: real, numNotes: int,
                           pitch0: nat, otherPitch0: nat, muted: bool, velocity: Velocity, events: seq<MidiEvent>)
      returns (r: seq<MidiEvent>, pitch: nat)
      ensures var n := if numNotes < 0 then 0 else numNotes;
              && r == events + TremoloEvents(ctx, pos, startTime, tremPickNoteDuration, n, pitch0, otherPitch0, muted, velocity)
              && pitch == Alternate(pitch0, otherPitch0, n)
    {
      r := events;
      pitch := pitch0;
      var otherPitch := otherPitch0;
      var k := 0;
      while k < numNotes
        invariant 0 <= k && k <= (if numNotes < 0 then 0 else numNotes)
        invariant r == events + TremoloEvents(ctx, pos, startTime, tremPickNoteDuration, k, pitch0, otherPitch0, muted, velocity)
        invariant pitch == Alternate(pitch0, otherPitch0, k) && otherPitch == Alternate(pitch0, otherPitch0, k + 1)
      {
        var currentStartTime := startTime + (k as real) * tremPickNoteDuration;
        TremoloStep(ctx, pos, startTime, tremPickNoteDuration, k, pitch0, otherPitch0, muted, velocity, events, r);
        AlternateTwice(pitch0, otherPitch0, k);
        r := r + [Ev(ctx, pos, currentStartTime, StopNote(pitch))];
        pitch, otherPitch := otherPitch, pitch;
        r := r + [Ev(ctx, pos, currentStartTime, PlayNote(tremPickNoteDuration, pitch, muted, velocity))];
        k := k + 1;
      }
    }

    /** The loop copying a note's pitch-wheel samples into bend events of its position. */
    method AppendBendEvents(ctx: VoiceContext, pos: Position, bendEvents: seq<BendEventInfo>, events: seq<MidiEvent>)
      returns (r: seq<MidiEvent>)
      ensures r == events + BendEvents(ctx, pos, bendEvents)
    {
      r := events;
      for b := 0 to |bendEvents|
        invariant r == events + BendEvents(ctx, pos, bendEvents[..b])
      {
        var event := bendEvents[b];
        ghost var before := BendEvents(ctx, pos, bendEvents[..b]);
        r := r + [Ev(ctx, pos, event.timestamp, PitchBend(event.amount))];
        assert bendEvents[..b + 1][..b] == bendEvents[..b];
        AppendAssoc(events, before, [Ev(ctx, pos, event.timestamp, PitchBend(event.amount))]);
      }
      assert bendEvents[..|bendEvents|] == bendEvents;
    }

    /** The tremolo or trill of a note, 32nd notes filling its duration, alternating the
        sounding pitch with the trill pitch (the pitch moved by the note's fret minus the
        trill fret); the pitch sounding afterwards. */
    method GenerateNoteTremolo(ctx: VoiceContext, call: NoteCall, pitch: nat, velocity: Velocity, events: seq<MidiEvent>)
      returns (r: seq<MidiEvent>, lastPitch: nat)
      requires CallFits(ctx, call) && pitch == SoundingPitch(ctx, call) && velocity == NoteVelocity(call.pos, call.note)
      ensures r == events + NoteTremolo(ctx, call) && lastPitch == LastPitch(ctx, call)
    {
      var note := call.note;
      r, lastPitch := events, pitch;
      if call.pos.hasTremoloPicking || note.trill.Some? {
        var tremPickNoteDuration := call.tempo / 8.0;
        var numNotes := TruncateToInt(call.duration / tremPickNoteDuration);
        assert (if numNotes < 0 then 0 else numNotes) == TremoloPasses(call);
        var otherPitch := pitch;
        if note.trill.Some? {
          otherPitch := U32(pitch + (note.fret - note.trill.value));
        }
        r, lastPitch := GenerateTremolo(ctx, call.pos, call.startTime, tremPickNoteDuration, numNotes, pitch, otherPitch,
                                        note.isMuted, velocity, r);
      } else {
        assert TremoloPasses(call) == 0;
        assert r == events + NoteTremolo(ctx, call);
      }
    }

    /** The end of a note: unless it is tie-wrapped or tied into by the next note, a stop
        of the given pitch after the note's length (halved for staccato, divided by 1.15
        under palm muting). */
    method GenerateNoteStop(ctx: VoiceContext, call: NoteCall, pitch: nat, events: seq<MidiEvent>) returns (r: seq<MidiEvent>)
      requires ctx.q == q
      ensures r == events + StopEvent(ctx, call, pitch)
    {
      r := events;
      var nextNote := q.adjacentNote(NextNote, ctx.systemIndex, ctx.staffIndex, ctx.voice, call.j, call.note);
      var tiedToNextNote := nextNote.Some? && nextNote.value.isTied;
      if !call.note.hasTieWrap && !tiedToNextNote {
        var noteLength := call.duration;
        if call.pos.isStaccato {
          noteLength := noteLength / 2.0;
        } else if call.pos.hasPalmMuting {
          noteLength := noteLength / 1.15;
        }
        r := r + [Ev(ctx, call.pos, call.startTime + noteLength, StopNote(pitch))];
      }
    }

    /** One pass of the note loop: the note played (unless tied), its slides and bends, its
        tremolo or trill and its stop (unless tied into). The pitch wheel before the note is
        the player's field, which the note's bend updates. */
    method GenerateNote(ctx: VoiceContext, j: nat, pos: Position, currentTempo: real, startTime: real, duration: real,
                        note: Note, events: seq<MidiEvent>) returns (r: seq<MidiEvent>)
      requires ctx.c == c && ctx.q == q && QueriesConsistent(q)
      requires currentTempo > 0.0 && note.stringIndex < |ctx.guitar.tuning|
      modifies this`activePitchBend
      ensures r == events + PlayerNoteEvents(ctx, NoteCall(j, pos, currentTempo, startTime, duration, old(activePitchBend), note))
      ensures activePitchBend == if note.bend.Some? then NextActivePitchBend(c, note.bend.value) else old(activePitchBend)
    {
      var call := NoteCall(j, pos, currentTempo, startTime, duration, activePitchBend, note);
      var pitch := ActualNotePitch(q, ctx.guitar, note);
      var velocity := NoteVelocity(pos, note);
      r := events;
      if !note.isTied {
        r := r + [Ev(ctx, pos, startTime, PlayNote(duration, pitch, note.isMuted, velocity))];
      } else {
        var prevNote := q.adjacentNote(PrevNote, ctx.systemIndex, ctx.staffIndex, ctx.voice, j, note);
        if prevNote.Some? {
          pitch := ActualNotePitch(q, ctx.guitar, prevNote.value);
        }
      }
      assert pitch == SoundingPitch(ctx, call);
      assert r == events + PlayEvent(ctx, call);
      ghost var r1 := r;

      ghost var slides := if HasSlide(note) then SlideSamples(c, startTime, duration, currentTempo, note) else [];
      ghost var bends := if note.bend.Some? then BendSamples(c, startTime, duration, currentTempo, note.bend.value, activePitchBend)
                         else [];
      var bendEvents: seq<BendEventInfo> := [];
      if HasSlide(note) {
        bendEvents := GenerateSlides(bendEvents, startTime, duration, currentTempo, note);
        assert bendEvents == slides;
      }
      if note.bend.Some? {
        bendEvents := GenerateBends(bendEvents, startTime, duration, currentTempo, note.bend.value);
      } else {
        assert bendEvents == bendEvents + bends;
      }
      assert NoteSamples(c, call) == slides + bends;
      r := AppendBendEvents(ctx, pos, bendEvents, r);
      ghost var r2 := r;

      r, pitch := GenerateNoteTremolo(ctx, call, pitch, velocity, r);
      ghost var r3 := r;
      r := GenerateNoteStop(ctx, call, pitch, r);
      assert PlayerNoteEvents(ctx, call) == NoteEvents(ctx, call);
      AppendFourRuns(events, PlayEvent(ctx, call), BendEvents(ctx, pos, NoteSamples(c, call)), NoteTremolo(ctx, call),
                     StopEvent(ctx, call, LastPitch(ctx, call)));
    }

    /** What the walk over a voice relies on: the context is this player's, on its score,
        and the notes of every position lie on the strings of the voice's guitar. */
    ghost predicate Serves(ctx: VoiceContext)
      reads this`currentSystemIndex
    {
      && ctx.c == c && ctx.q == q && ctx.markers == score.tempoMarkers && ctx.currentSystemIndex == currentSystemIndex
      && QueriesConsistent(q)
      && forall j :: 0 <= j < |ctx.positions| ==> NotesFit(ctx.guitar, ctx.positions[j].notes)
    }

    /** One pass of the note loop of a position: the note shifted by the arpeggio offset,
        its duration shortened by as much, then generated. */
    method GenerateNotePass(ctx: VoiceContext, j: nat, pos: Position, currentTempo: real, notes: seq<Note>,
                            ghost st0: NoteState, k: nat, startTime0: real, duration0: real, events: seq<MidiEvent>)
      returns (startTime: real, duration: real, r: seq<MidiEvent>)
      requires ctx.c == c && ctx.q == q && QueriesConsistent(q)
      requires currentTempo > 0.0 && NotesFit(ctx.guitar, notes) && k < |notes|
      requires NoteState(startTime0, duration0, activePitchBend, events)
               == NotesUpTo(ctx, PlayerNoteEvents, j, pos, currentTempo, notes, st0, k)
      modifies this`activePitchBend
      ensures NoteState(startTime, duration, activePitchBend, r)
              == NotesUpTo(ctx, PlayerNoteEvents, j, pos, currentTempo, notes, st0, k + 1)
    {
      ghost var before := NoteState(startTime0, duration0, activePitchBend, events);
      startTime, duration := startTime0, duration0;
      if pos.hasArpeggioDown || pos.hasArpeggioUp {
        startTime := startTime + c.arpeggioOffset;
        duration := duration - c.arpeggioOffset;
      }
      r := GenerateNote(ctx, j, pos, currentTempo, startTime, duration, notes[k], events);
      NotesUpToStep(ctx, PlayerNoteEvents, j, pos, currentTempo, notes, st0, k, before,
                    NoteState(startTime, duration, activePitchBend, r));
    }

    /** The note loop of a position. */
    method GenerateNotes(ctx: VoiceContext, j: nat, pos: Position, currentTempo: real, notes: seq<Note>,
                         startTime0: real, duration0: real, events: seq<MidiEvent>)
      returns (startTime: real, duration: real, r: seq<MidiEvent>)
      requires ctx.c == c && ctx.q == q && QueriesConsistent(q)
      requires currentTempo > 0.0 && NotesFit(ctx.guitar, notes)
      modifies this`activePitchBend
      ensures NoteState(startTime, duration, activePitchBend, r)
              == NotesUpTo(ctx, PlayerNoteEvents, j, pos, currentTempo, notes,
                           NoteState(startTime0, duration0, old(activePitchBend), events), |notes|)
    {
      ghost var st0 := NoteState(startTime0, duration0, activePitchBend, events);
      startTime, duration, r := startTime0, duration0, events;
      for k := 0 to |notes|
        invariant NoteState(startTime, duration, activePitchBend, r)
                  == NotesUpTo(ctx, PlayerNoteEvents, j, pos, currentTempo, notes, st0, k)
      {
        startTime, duration, r := GenerateNotePass(ctx, j, pos, currentTempo, notes, st0, k, startTime, duration, r);
      }
    }

    /** The events that apply to all notes of a sounding position: vibrato on at its start
        and off at its end, then the let-ring switch (on, off, or off at the end of the
        voice's last position while let ring is sounding). */
    method GenerateMarks(ctx: VoiceContext, j: nat, pos: Position, startTime: real, duration: real,
                         letRingActive0: bool, events: seq<MidiEvent>)
      returns (r: seq<MidiEvent>, letRingActive: bool)
      ensures r == events + VibratoEvents(ctx, pos, startTime, duration)
                   + LetRingAt(ctx, j, pos, startTime, duration, letRingActive0).events
      ensures letRingActive == LetRingAt(ctx, j, pos, startTime, duration, letRingActive0).active
    {
      r, letRingActive := events, letRingActive0;
      if pos.hasVibrato || pos.hasWideVibrato {
        var vibratoType := if pos.hasVibrato then NormalVibrato else WideVibrato;
        r := r + [Ev(ctx, pos, startTime, VibratoOn(vibratoType)), Ev(ctx, pos, startTime + duration, VibratoOff)];
      }
      if pos.hasLetRing && !letRingActive {
        r := r + [Ev(ctx, pos, startTime, LetRingOn)];
        letRingActive := true;
      } else if !pos.hasLetRing && letRingActive {
        r := r + [Ev(ctx, pos, startTime, LetRingOff)];
        letRingActive := false;
      } else if letRingActive && j == |ctx.positions| - 1 {
        r := r + [Ev(ctx, pos, startTime + duration, LetRingOff)];
        letRingActive := false;
      }
    }

    /** One pass of the position loop: a rest moves the cursor by its duration (a lone
        whole rest by its bar); a sounding position, after the grace-note shift, gets its
        vibrato and let-ring events and its notes in played order, and moves the cursor by
        its duration. The end time is the latest cursor. */
    method GeneratePosition(ctx: VoiceContext, j: nat, startTime0: real, endTime0: real, letRingActive0: bool,
                            events: seq<MidiEvent>)
      returns (startTime: real, endTime: real, letRingActive: bool, r: seq<MidiEvent>)
      requires Serves(ctx) && j < |ctx.positions|
      modifies this`activePitchBend
      ensures VoiceState(startTime, endTime, letRingActive, activePitchBend, r)
              == PositionStep(ctx, PlayerNoteEvents,
                              VoiceState(startTime0, endTime0, letRingActive0, old(activePitchBend), events), j)
    {
      ghost var vs := VoiceState(startTime0, endTime0, letRingActive0, activePitchBend, events);
      var pos := ctx.positions[j];
      var currentTempo := GetCurrentTempo(pos.position);
      var duration := CalculateNoteDuration(pos);
      startTime, endTime, letRingActive, r := startTime0, endTime0, letRingActive0, events;
      if pos.isRest {
        if pos.durationType == 1 {
          duration := GetWholeRestDuration(ctx.systemIndex, ctx.staffIndex, ctx.voice, j, pos, duration);
        }
        assert duration == PositionDuration(ctx, j);
        startTime := startTime + duration;
        endTime := Max(endTime, startTime);
        return;
      }
      assert duration == PositionDuration(ctx, j);
      if pos.isAcciaccatura {
        duration := c.graceNoteDuration as real;
        startTime := startTime - duration;
      }
      assert duration == PlayedDuration(ctx, j) && startTime == PlayedStart(ctx, vs, j);
      var notes := pos.notes;
      if pos.hasArpeggioDown {
        notes := q.sortNotes(notes, true);
      } else if pos.hasArpeggioUp {
        notes := q.sortNotes(notes, false);
      }
      assert notes == PlayedNotes(q, pos);
      r, letRingActive := GenerateMarks(ctx, j, pos, startTime, duration, letRingActive, r);
      assert NotesStart(ctx, vs, j) == NoteState(startTime, duration, activePitchBend, r);
      PlayedNotesFit(q, ctx.guitar, pos);
      startTime, duration, r := GenerateNotes(ctx, j, pos, currentTempo, notes, startTime, duration, r);
      assert PositionNotes(ctx, PlayerNoteEvents, vs, j) == NoteState(startTime, duration, activePitchBend, r);
      startTime := startTime + duration;
      endTime := Max(endTime, startTime);
    }

    /** The position loop of a voice: cursor at the system start, let ring off and the
        pitch wheel at its default; the end time carried in and out. */
    method GenerateVoice(ctx: VoiceContext, systemStartTime: real, endTime0: real, events: seq<MidiEvent>)
      returns (endTime: real, r: seq<MidiEvent>)
      requires Serves(ctx)
      modifies this`activePitchBend
      ensures var vs := VoiceUpTo(ctx, PlayerNoteEvents, VoiceStart(c, systemStartTime, endTime0, events), |ctx.positions|);
              endTime == vs.endTime && activePitchBend == vs.pitchBend && r == vs.events
    {
      ghost var vs0 := VoiceStart(c, systemStartTime, endTime0, events);
      activePitchBend := c.defaultBend;
      var startTime := systemStartTime;
      var letRingActive := false;
      endTime, r := endTime0, events;
      for j := 0 to |ctx.positions|
        invariant VoiceState(startTime, endTime, letRingActive, activePitchBend, r) == VoiceUpTo(ctx, PlayerNoteEvents, vs0, j)
      {
        ghost var before := VoiceState(startTime, endTime, letRingActive, activePitchBend, r);
        startTime, endTime, letRingActive, r := GeneratePosition(ctx, j, startTime, endTime, letRingActive, r);
        assert VoiceUpTo(ctx, PlayerNoteEvents, vs0, j + 1) == PassOf(ctx, PlayerNoteEvents)(before, j);
      }
    }

    /** The voice loop of a staff: each voice walked from the system start after what the
        voices before it generated. */
    method GenerateStaff(systemIndex: nat, staffIndex: nat, systemStartTime: real, endTime0: real, events: seq<MidiEvent>)
      returns (endTime: real, r: seq<MidiEvent>)
      requires systemIndex < |score.systems| && PlayableScore(score) && QueriesConsistent(q)
      requires staffIndex < |score.systems[systemIndex].staves|
      modifies this`activePitchBend
      ensures SystemState(endTime, activePitchBend, r)
              == VoicesUpTo(c, q, score, PlayerNoteEvents, currentSystemIndex, systemIndex, staffIndex, systemStartTime,
                            SystemState(endTime0, old(activePitchBend), events), NUM_STAFF_VOICES)
    {
      ghost var s0 := SystemState(endTime0, activePitchBend, events);
      endTime, r := endTime0, events;
      for voice := 0 to NUM_STAFF_VOICES
        invariant SystemState(endTime, activePitchBend, r)
                  == VoicesUpTo(c, q, score, PlayerNoteEvents, currentSystemIndex, systemIndex, staffIndex, systemStartTime,
                                s0, voice)
      {
        ghost var before := SystemState(endTime, activePitchBend, r);
        var ctx := ContextOf(c, q, score, currentSystemIndex, systemIndex, staffIndex, voice);
        ContextFits(c, q, score, currentSystemIndex, systemIndex, staffIndex, voice);
        endTime, r := GenerateVoice(ctx, systemStartTime, endTime, r);
        assert VoicesUpTo(c, q, score, PlayerNoteEvents, currentSystemIndex, systemIndex, staffIndex, systemStartTime,
                          s0, voice + 1)
               == VoicePass(c, q, score, PlayerNoteEvents, currentSystemIndex, systemIndex, staffIndex, systemStartTime,
                            before, voice);
      }
    }

    /** One pass of the staff loop: the voices of staff i after what the staves before it
        generated. */
    method GenerateStaffPass(systemIndex: nat, i: nat, systemStartTime: real, ghost s0: SystemState,
                             endTime0: real, events: seq<MidiEvent>)
      returns (endTime: real, r: seq<MidiEvent>)
      requires systemIndex < |score.systems| && PlayableScore(score) && QueriesConsistent(q)
      requires i < |score.systems[systemIndex].staves|
      requires SystemState(endTime0, activePitchBend, events)
               == StavesUpTo(c, q, score, PlayerNoteEvents, currentSystemIndex, systemIndex, systemStartTime, s0, i)
      modifies this`activePitchBend
      ensures SystemState(endTime, activePitchBend, r)
              == StavesUpTo(c, q, score, PlayerNoteEvents, currentSystemIndex, systemIndex, systemStartTime, s0, i + 1)
    {
      ghost var before := SystemState(endTime0, activePitchBend, events);
      endTime, r := GenerateStaff(systemIndex, i, systemStartTime, endTime0, events);
      IterateNext(StaffPassOf(c, q, score, PlayerNoteEvents, currentSystemIndex, systemIndex, systemStartTime), s0, i, before);
    }

    /** generateEventsForSystem: every voice of every staff of the system, appended to the
        event list; the end time returned is the latest cursor of any voice. */
    method GenerateEventsForSystem(systemIndex: nat, systemStartTime: real, events: seq<MidiEvent>)
      returns (endTime: real, r: seq<MidiEvent>)
      requires systemIndex < |score.systems| && PlayableScore(score) && QueriesConsistent(q)
      modifies this`activePitchBend
      ensures SystemState(endTime, activePitchBend, r)
              == SystemEvents(c, q, score, PlayerNoteEvents, currentSystemIndex, systemIndex, systemStartTime,
                              old(activePitchBend), events)
    {
      ghost var s0 := SystemState(systemStartTime, activePitchBend, events);
      ghost var st := s0;
      endTime, r := systemStartTime, events;
      var staffCount := |score.systems[systemIndex].staves|;
      var i := 0;
      while i < staffCount
        invariant i <= staffCount
        invariant st == StavesUpTo(c, q, score, PlayerNoteEvents, currentSystemIndex, systemIndex, systemStartTime, s0, i)
        invariant endTime == st.endTime && activePitchBend == st.pitchBend && r == st.events
      {
        endTime, r := GenerateStaffPass(systemIndex, i, systemStartTime, s0, endTime, r);
        st := SystemState(endTime, activePitchBend, r);
        i := i + 1;
      }
      assert st == StavesUpTo(c, q, score, PlayerNoteEvents, currentSystemIndex, systemIndex, systemStartTime, s0, staffCount);
    }

    /** One pass of the generation loop of run: the current system's metronome, then its
        events, from the time the systems before it ended. */
    method GenerateSystemPass(ghost pitchBend0: int, timeStamp0: real, events0: seq<MidiEvent>)
      returns (timeStamp: real, events: seq<MidiEvent>)
      requires PlayableScore(score) && QueriesConsistent(q) && BarlinesPresent(score)
      requires currentSystemIndex < |score.systems|
      requires SystemState(timeStamp0, activePitchBend, events0) == ScoreEventsUpTo(c, q, score, pitchBend0, currentSystemIndex)
      modifies this`activePitchBend
      ensures SystemState(timeStamp, activePitchBend, events) == ScoreEventsUpTo(c, q, score, pitchBend0, currentSystemIndex + 1)
    {
      ghost var before := SystemState(timeStamp0, activePitchBend, events0);
      events := GenerateMetronome(currentSystemIndex, timeStamp0, events0);
      timeStamp, events := GenerateEventsForSystem(currentSystemIndex, timeStamp0, events);
      IterateNext(SystemPassOf(c, q, score), SystemState(0.0, pitchBend0, []), currentSystemIndex, before);
    }

    /** The generation loop of run: the current system index walks the score; each system's
        metronome, then its events, start where the previous system ended. */
    method GenerateScoreEvents() returns (events: seq<MidiEvent>)
      requires PlayableScore(score) && QueriesConsistent(q) && BarlinesPresent(score)
      modifies this`currentSystemIndex, this`activePitchBend
      ensures events == ScoreEventsUpTo(c, q, score, old(activePitchBend), |score.systems|).events
      ensures currentSystemIndex == |score.systems|
    {
      ghost var pitchBend0 := activePitchBend;
      events := [];
      var timeStamp := 0.0;
      currentSystemIndex := 0;
      while currentSystemIndex < |score.systems|
        invariant currentSystemIndex <= |score.systems|
        invariant SystemState(timeStamp, activePitchBend, events) == ScoreEventsUpTo(c, q, score, pitchBend0, currentSystemIndex)
        decreases |score.systems| - currentSystemIndex
      {
        timeStamp, events := GenerateSystemPass(pitchBend0, timeStamp, events);
        currentSystemIndex := currentSystemIndex + 1;
      }
    }
  }
}
