/** The events the MIDI player generates, and the player's constants. */
module MidiEvents {
  import opened Score

  /** PlayNoteEvent::VelocityType. */
  datatype Velocity = GhostVelocity | MutedVelocity | PalmMutedVelocity | DefaultVelocity

  datatype VibratoType = NormalVibrato | WideVibrato

  /** What an event does when performed. */
  datatype EventKind =
    | PlayNote(duration: real, pitch: int, isMuted: bool, velocity: Velocity)
    | StopNote(pitch: int)
    | VibratoOn(vibratoType: VibratoType)
    | VibratoOff
    | LetRingOn
    | LetRingOff
    | PitchBend(amount: int)
    | Metronome(duration: real, strongAccent: bool)

  /** A MIDI event: channel, start time in milliseconds and the score location it belongs to. */
  datatype MidiEvent = MidiEvent(channel: nat, startTime: real, position: nat, system: nat, kind: EventKind)

  /** MidiPlayer::BendEventInfo: a pitch-wheel sample. */
  datatype BendEventInfo = BendEventInfo(timestamp: real, amount: int)

  /** Constants declared in headers this model does not contain:
      BendEvent::DEFAULT_BEND, BendEvent::BEND_QUARTER_TONE, GRACE_NOTE_DURATION,
      ARPEGGIO_OFFSET, METRONOME_CHANNEL, MetronomeEvent::METRONOME_PITCH,
      TempoMarker::DEFAULT_BEATS_PER_MINUTE, TempoMarker::DEFAULT_BEAT_TYPE and
      TempoMarker::quarter. */
  datatype PlayerConstants = PlayerConstants(
    defaultBend: int,
    bendQuarterTone: real,
    graceNoteDuration: NonNegReal,
    arpeggioOffset: NonNegReal,
    metronomeChannel: nat,
    metronomePitch: nat,
    defaultBeatsPerMinute: Positive,
    defaultBeatType: Positive,
    quarter: Positive)
}
