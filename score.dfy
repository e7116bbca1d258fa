/** A read-only snapshot of the score that playback works on: systems of
    staves of voices of positions of notes, with barlines, directions, tempo
    markers, guitars and alternate endings.  Collaborators whose code is not
    part of this model are the function-valued fields of ScoreQueries. */
module Score {
  import opened Directions

  /** The "where in the score" key: a system index and a position index, ordered
      lexicographically. */
  datatype SystemLocation = SystemLocation(system: nat, position: nat)

  /** operator< of SystemLocation: system first, then position. */
  predicate Before(a: SystemLocation, b: SystemLocation) {
    a.system < b.system || (a.system == b.system && a.position < b.position)
  }

  predicate AtOrBefore(a: SystemLocation, b: SystemLocation) {
    Before(a, b) || a == b
  }

  /** The location order is a strict total order with (0, 0) as its least element. */
  lemma LocationOrder(a: SystemLocation, b: SystemLocation, c: SystemLocation)
    ensures !Before(a, a)
    ensures Before(a, b) && Before(b, c) ==> Before(a, c)
    ensures Before(a, b) || a == b || Before(b, a)
    ensures AtOrBefore(SystemLocation(0, 0), a)
  {
  }

  type Positive = n: nat | n > 0 witness 1
  type NonNegReal = r: real | r >= 0.0 witness 0.0

  /** Beats per measure, beat amount (the time signature's denominator) and
      metronome pulses per measure. */
  datatype TimeSignature = TimeSignature(beatsPerMeasure: nat, beatAmount: Positive, pulses: Positive)

  datatype Barline = Barline(position: nat, isRepeatStart: bool, isRepeatEnd: bool,
                             repeatCount: nat, timeSignature: TimeSignature)

  datatype AlternateEnding = AlternateEnding(system: nat, position: nat)

  /** A tempo marker; beatType is the marker's beat unit, in the units of QUARTER_BEAT_TYPE. */
  datatype TempoMarker = TempoMarker(system: nat, position: nat, beatsPerMinute: Positive,
                                     beatType: Positive, isAlterationOfPace: bool)

  datatype Guitar = Guitar(tuning: seq<int>, capo: int)

  datatype BendType = NormalBend | BendAndRelease | BendAndHold | PreBend
                    | PreBendAndRelease | PreBendAndHold | GradualRelease | ImmediateRelease

  datatype Bend = Bend(bendType: BendType, bentPitch: nat, releasePitch: nat, duration: nat)

  datatype SlideOutOfType = SlideOutOfShiftSlide | SlideOutOfLegatoSlide
                          | SlideOutOfDownwards | SlideOutOfUpwards

  datatype SlideOutOf = SlideOutOf(slideType: SlideOutOfType, steps: int)

  /** Slide-into kinds: from below, from above, and the kinds playback does not support. */
  datatype SlideIntoType = SlideIntoFromBelow | SlideIntoFromAbove | SlideIntoOther

  datatype ArtificialHarmonic = ArtificialHarmonic(key: nat, keyVariation: nat, octaveDiff: nat)

  datatype Note = Note(
    stringIndex: nat,
    fret: nat,
    isTied: bool,
    hasTieWrap: bool,
    isMuted: bool,
    isGhostNote: bool,
    isNaturalHarmonic: bool,
    tappedHarmonic: Option<nat>,           // the tapped fret
    artificialHarmonic: Option<ArtificialHarmonic>,
    bend: Option<Bend>,
    slideOutOf: Option<SlideOutOf>,
    slideInto: Option<SlideIntoType>,
    trill: Option<nat>)                    // the other fret

  predicate HasSlide(note: Note) {
    note.slideOutOf.Some? || note.slideInto.Some?
  }

  /** A position of a voice.  `beats` is what Position::GetDuration returns: the
      length in quarter-note beats, with dots and irregular groupings applied. */
  datatype Position = Position(
    position: nat,
    durationType: Positive,
    beats: NonNegReal,
    isRest: bool,
    hasVibrato: bool,
    hasWideVibrato: bool,
    hasArpeggioUp: bool,
    hasArpeggioDown: bool,
    isStaccato: bool,
    hasPalmMuting: bool,
    hasTremoloPicking: bool,
    hasLetRing: bool,
    isAcciaccatura: bool,
    notes: seq<Note>)

  const NUM_STAFF_VOICES: nat := 2

  datatype Staff = Staff(voices: seq<seq<Position>>)

  /** `barlines` is what System::GetBarlines returns: the start bar, the inner
      barlines and, last, the end bar. */
  datatype System = System(staves: seq<Staff>, barlines: seq<Barline>,
                           directions: seq<DirectionValue>, positionCount: nat)

  datatype Score = Score(systems: seq<System>, guitars: seq<Guitar>,
                         tempoMarkers: seq<TempoMarker>, alternateEndings: seq<AlternateEnding>)

  datatype AdjacentDirection = PrevNote | NextNote

  /** Score and MIDI helpers that this model does not contain, taken as given functions:
      - adjacentNote(dir, system, staff, voice, j, note): Staff::GetAdjacentNoteOnString for
        the note of position j of the voice;
      - isOnlyPositionInBar(system, staff, voice, j): Staff::IsOnlyPositionInBar;
      - precedingBarline(system, position): System::GetPrecedingBarline;
      - sortNotes(notes, down): Position::SortNotesDown (down) / SortNotesUp;
      - noteOctave(pitch): midi::GetMidiNoteOctave. */
  datatype ScoreQueries = ScoreQueries(
    adjacentNote: (AdjacentDirection, nat, nat, nat, nat, Note) -> Option<Note>,
    isOnlyPositionInBar: (nat, nat, nat, nat) -> bool,
    precedingBarline: (nat, nat) -> Barline,
    sortNotes: (seq<Note>, bool) -> seq<Note>,
    noteOctave: int -> int)

  /** What the collaborators' names promise and playback relies on: the adjacent
      note is on the same string, and sorting only reorders. */
  ghost predicate QueriesConsistent(q: ScoreQueries) {
    && (forall d, s, st, v, j, n :: q.adjacentNote(d, s, st, v, j, n).Some? ==>
          q.adjacentNote(d, s, st, v, j, n).value.stringIndex == n.stringIndex)
    && (forall ns, down :: multiset(q.sortNotes(ns, down)) == multiset(ns))
  }

  predicate NotesFit(g: Guitar, notes: seq<Note>) {
    forall k :: 0 <= k < |notes| ==> notes[k].stringIndex < |g.tuning|
  }

  predicate StaffFits(g: Guitar, staff: Staff) {
    |staff.voices| == NUM_STAFF_VOICES &&
    forall v, j :: 0 <= v < |staff.voices| && 0 <= j < |staff.voices[v]| ==> NotesFit(g, staff.voices[v][j].notes)
  }

  predicate SystemFits(guitars: seq<Guitar>, system: System) {
    |system.staves| <= |guitars| &&
    forall i :: 0 <= i < |system.staves| ==> StaffFits(guitars[i], system.staves[i])
  }

  /** What event generation demands of the score: a guitar for every staff, two
      voices per staff, and every note on a string of its staff's tuning. */
  predicate PlayableScore(score: Score) {
    forall s :: 0 <= s < |score.systems| ==> SystemFits(score.guitars, score.systems[s])
  }
}
