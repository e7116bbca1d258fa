/** Note pitch and velocity resolution. */
module Pitch {
  import opened Directions
  import opened Score
  import opened MidiEvents

  /** Conversion to quint8 / uint8_t: reduction modulo 2^8. */
  function U8(x: int): (r: nat)
    ensures r < 0x100
    ensures 0 <= x < 0x100 ==> r == x
  {
    x % 0x100
  }

  /** Conversion to quint32 / uint32_t: reduction modulo 2^32. */
  function U32(x: int): (r: nat)
    ensures r < 0x1_0000_0000
    ensures 0 <= x < 0x1_0000_0000 ==> r == x
  {
    x % 0x1_0000_0000
  }

  /** initHarmonicPitches: fret of a natural harmonic to the interval, in half steps,
      above the open string at which it sounds. */
  const HARMONIC_PITCHES: map<nat, nat> :=
    map[3 := 31, 4 := 28, 9 := 28, 16 := 28, 28 := 28, 5 := 24, 24 := 24, 7 := 19, 19 := 19, 12 := 12]

  /** harmonicPitches[fret] on the const map: 0 for a fret without a harmonic. */
  function HarmonicOffset(fret: nat): (r: nat)
    ensures r > 0 <==> fret in {3, 4, 5, 7, 9, 12, 16, 19, 24, 28}
    ensures fret in HARMONIC_PITCHES ==> r == HARMONIC_PITCHES[fret]
  {
    if fret in HARMONIC_PITCHES then HARMONIC_PITCHES[fret] else 0
  }

  /** The table agrees with the harmonic series: the 12th fret sounds an octave up, the
      7th and 19th an octave and a fifth, the 5th and 24th two octaves, the 4th, 9th, 16th
      and 28th two octaves and a major third, the 3rd two octaves and a fifth. */
  lemma HarmonicSeries()
    ensures HarmonicOffset(12) == 12
    ensures HarmonicOffset(7) == HarmonicOffset(19) == 12 + 7
    ensures HarmonicOffset(5) == HarmonicOffset(24) == 2 * 12
    ensures HarmonicOffset(4) == HarmonicOffset(9) == HarmonicOffset(16) == HarmonicOffset(28) == 2 * 12 + 4
    ensures HarmonicOffset(3) == 2 * 12 + 7
  {
  }

  /** getHarmonicPitch: both arguments are narrowed to quint8, and so is the sum. */
  function HarmonicPitch(basePitch: int, fretOffset: int): (r: nat)
    ensures r < 0x100
  {
    U8(U8(basePitch) + HarmonicOffset(U8(fretOffset)))
  }

  /** The pitch of the open string, capo included. */
  function OpenStringPitch(guitar: Guitar, note: Note): nat
    requires note.stringIndex < |guitar.tuning|
  {
    U32(guitar.tuning[note.stringIndex] + guitar.capo)
  }

  /** getActualNotePitch: the fretted pitch, replaced by the natural or tapped harmonic
      and finally overridden by an artificial harmonic. */
  function ActualNotePitch(q: ScoreQueries, guitar: Guitar, note: Note): (r: nat)
    requires note.stringIndex < |guitar.tuning|
    ensures r < 0x1_0000_0000
    ensures note.artificialHarmonic.None? && note.tappedHarmonic.None? && !note.isNaturalHarmonic ==>
              r == U32(OpenStringPitch(guitar, note) + note.fret)
    ensures note.artificialHarmonic.None? && note.tappedHarmonic.None? && note.isNaturalHarmonic ==>
              r == HarmonicPitch(OpenStringPitch(guitar, note), note.fret)
  {
    var openStringPitch := OpenStringPitch(guitar, note);
    var pitch := U32(openStringPitch + note.fret);
    var pitch := if note.isNaturalHarmonic then HarmonicPitch(openStringPitch, note.fret) else pitch;
    var pitch := if note.tappedHarmonic.Some? then HarmonicPitch(pitch, note.tappedHarmonic.value - note.fret) else pitch;
    match note.artificialHarmonic
    case Some(h) => U32((q.noteOctave(pitch) + h.octaveDiff + 2) * 12 + h.key)
    case None => pitch
  }

  /** The same note with only its harmonics removed. */
  function Fretted(note: Note): Note {
    note.(isNaturalHarmonic := false, tappedHarmonic := None, artificialHarmonic := None)
  }

  /** A natural harmonic at the 12th fret sounds the fretted 12th fret; at the 7th it
      sounds an octave above the fretted 7th; below the quint8 range no wrap-around occurs. */
  lemma NaturalHarmonicMatchesFretted(q: ScoreQueries, guitar: Guitar, note: Note)
    requires note.stringIndex < |guitar.tuning|
    requires note.isNaturalHarmonic && note.tappedHarmonic.None? && note.artificialHarmonic.None?
    requires OpenStringPitch(guitar, note) + 19 < 0x100
    ensures note.fret == 12 ==> ActualNotePitch(q, guitar, note) == ActualNotePitch(q, guitar, Fretted(note))
    ensures note.fret == 7 ==> ActualNotePitch(q, guitar, note) == ActualNotePitch(q, guitar, Fretted(note)) + 12
  {
    assert Fretted(note).stringIndex == note.stringIndex;
    assert OpenStringPitch(guitar, Fretted(note)) == OpenStringPitch(guitar, note);
  }

  /** Tapping twelve frets above the fretted note sounds an octave above it (the tapped
      harmonic table is read at the distance between the two frets). */
  lemma TappedOctave(q: ScoreQueries, guitar: Guitar, note: Note)
    requires note.stringIndex < |guitar.tuning|
    requires note.tappedHarmonic == Some(note.fret + 12)
    requires !note.isNaturalHarmonic && note.artificialHarmonic.None?
    requires OpenStringPitch(guitar, note) + note.fret + 12 < 0x100
    ensures ActualNotePitch(q, guitar, note) == ActualNotePitch(q, guitar, Fretted(note)) + 12
  {
    assert OpenStringPitch(guitar, Fretted(note)) == OpenStringPitch(guitar, note);
  }

  /** A tapped harmonic is applied to whatever pitch the fretted and natural-harmonic
      rules give: the harmonic table is read at the distance between the tapped fret and
      the fretted one, both narrowed to quint8 as getHarmonicPitch does. */
  lemma TappedHarmonicRule(q: ScoreQueries, guitar: Guitar, note: Note)
    requires note.stringIndex < |guitar.tuning|
    requires note.tappedHarmonic.Some? && note.artificialHarmonic.None?
    ensures ActualNotePitch(q, guitar, note) ==
            HarmonicPitch(ActualNotePitch(q, guitar, note.(tappedHarmonic := None)),
                          note.tappedHarmonic.value - note.fret)
  {
    assert OpenStringPitch(guitar, note.(tappedHarmonic := None)) == OpenStringPitch(guitar, note);
  }

  /** An artificial harmonic overrides the pitch the other rules give: it keeps only that
      pitch's octave, raised by the harmonic's octave difference plus two, at the
      harmonic's key. */
  lemma ArtificialHarmonicOverrides(q: ScoreQueries, guitar: Guitar, note: Note)
    requires note.stringIndex < |guitar.tuning| && note.artificialHarmonic.Some?
    ensures var h := note.artificialHarmonic.value;
            var underlying := ActualNotePitch(q, guitar, note.(artificialHarmonic := None));
            ActualNotePitch(q, guitar, note) == U32((q.noteOctave(underlying) + h.octaveDiff + 2) * 12 + h.key)
  {
    assert OpenStringPitch(guitar, note.(artificialHarmonic := None)) == OpenStringPitch(guitar, note);
  }

  /** The harmonic arithmetic wraps at 256: an open string of 250 with a natural harmonic
      at the 12th fret sounds pitch 6. */
  lemma HarmonicWrapsAround()
    ensures HarmonicPitch(250, 12) == 6
  {
  }

  /** A tapped fret below the fretted one wraps the fret offset around as well: tapping
      fret 0 over fret 244 reads the table entry of fret 12. */
  lemma TappedOffsetWraps()
    ensures HarmonicPitch(40, 0 - 244) == 52
  {
    assert U8(0 - 244) == 12;
  }

  /** The velocities whose condition holds for the note at the position. */
  function ApplicableVelocities(pos: Position, note: Note): set<Velocity> {
    (if note.isGhostNote then {GhostVelocity} else {})
    + (if note.isMuted then {MutedVelocity} else {})
    + (if pos.hasPalmMuting then {PalmMutedVelocity} else {})
    + {DefaultVelocity}
  }

  /** Priority of the velocity conditions: lower is tested first. */
  function VelocityRank(v: Velocity): nat {
    match v
    case GhostVelocity => 0
    case MutedVelocity => 1
    case PalmMutedVelocity => 2
    case DefaultVelocity => 3
  }

  /** getNoteVelocity: ghost note, then muted note, then a palm-muted position, then the default. */
  function NoteVelocity(pos: Position, note: Note): (v: Velocity)
    ensures v in ApplicableVelocities(pos, note)
    ensures forall w :: w in ApplicableVelocities(pos, note) ==> VelocityRank(v) <= VelocityRank(w)
  {
    if note.isGhostNote then GhostVelocity
    else if note.isMuted then MutedVelocity
    else if pos.hasPalmMuting then PalmMutedVelocity
    else DefaultVelocity
  }
}
