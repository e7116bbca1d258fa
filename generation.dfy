/** The events generateEventsForSystem produces, as functions of the score: each staff,
    each voice, each position, each note, in the order the player visits them. */
module EventGeneration {
  import opened Directions
  import opened Score
  import opened MidiEvents
  import opened Timing
  import opened Pitch
  import opened BendRamps

  function Max(a: real, b: real): (m: real)
    ensures m >= a && m >= b && (m == a || m == b)
  {
    if a >= b then a else b
  }

  /** Everything the walk over one voice depends on. */
  datatype VoiceContext = VoiceContext(
    c: PlayerConstants,
    q: ScoreQueries,
    markers: seq<TempoMarker>,
    currentSystemIndex: nat,
    systemIndex: nat,
    staffIndex: nat,
    voice: nat,
    guitar: Guitar,
    positions: seq<Position>)

  /** An event of a position of the voice. */
  function Ev(ctx: VoiceContext, pos: Position, t: real, kind: EventKind): MidiEvent {
    MidiEvent(ctx.staffIndex, t, pos.position, ctx.systemIndex, kind)
  }

  predicate HasArpeggio(pos: Position) {
    pos.hasArpeggioDown || pos.hasArpeggioUp
  }

  /** The notes in the order they are played: sorted for an arpeggio. */
  function PlayedNotes(q: ScoreQueries, pos: Position): seq<Note> {
    if pos.hasArpeggioDown then q.sortNotes(pos.notes, true)
    else if pos.hasArpeggioUp then q.sortNotes(pos.notes, false)
    else pos.notes
  }

  /** Sorting only reorders, so the played notes are on the guitar's strings too. */
  lemma PlayedNotesFit(q: ScoreQueries, guitar: Guitar, pos: Position)
    requires QueriesConsistent(q) && NotesFit(guitar, pos.notes)
    ensures NotesFit(guitar, PlayedNotes(q, pos))
  {
    var ns := PlayedNotes(q, pos);
    assert multiset(ns) == multiset(pos.notes);
    forall k | 0 <= k < |ns| ensures ns[k].stringIndex < |guitar.tuning| {
      assert ns[k] in multiset(pos.notes);
      var k' :| 0 <= k' < |pos.notes| && pos.notes[k'] == ns[k];
    }
  }

  /** The pitch at step k of a trill: the note's own pitch at even steps, the other one at odd steps. */
  function Alternate(pitch: int, other: int, k: nat): int {
    if k % 2 == 0 then pitch else other
  }

  /** The number of 32nd notes of a tremolo or trill: the duration over a 32nd note,
      truncated toward zero, and none when that is negative. */
  function TremoloCount(duration: real, tempo: real): (n: nat)
    requires tempo > 0.0
    ensures duration < 0.0 ==> n == 0
    ensures duration >= 0.0 ==> (n as real) * (tempo / 8.0) <= duration < ((n + 1) as real) * (tempo / 8.0)
  {
    var sub := tempo / 8.0;
    var k := TruncateToInt(duration / sub);
    var n := if k < 0 then 0 else k;
    if duration >= 0.0 then
      ScaleBelow(duration, sub, n as real);
      ScaleAbove(duration, sub, (n + 1) as real);
      n
    else n
  }

  /** Bounds on a quotient carried over to the dividend. */
  lemma ScaleBelow(d: real, s: real, m: real)
    requires s > 0.0 && m <= d / s
    ensures m * s <= d
  {
    var x := d / s;
    assert x * s == d;
    assert (x - m) * s >= 0.0;
  }

  lemma ScaleAbove(d: real, s: real, m: real)
    requires s > 0.0 && d / s < m
    ensures d < m * s
  {
    var x := d / s;
    assert x * s == d;
    assert (m - x) * s > 0.0;
  }

  /** Pass k of the tremolo loop: at the k-th 32nd note, stop the sounding pitch and play
      the one it alternates with. */
  function TremoloPass(ctx: VoiceContext, pos: Position, start: real, sub: real, pitch: int, other: int,
                       muted: bool, velocity: Velocity, k: nat): seq<MidiEvent> {
    var t := start + (k as real) * sub;
    [Ev(ctx, pos, t, StopNote(Alternate(pitch, other, k))),
     Ev(ctx, pos, t, PlayNote(sub, Alternate(pitch, other, k + 1), muted, velocity))]
  }

  /** The tremolo loop after its first n passes. */
  function TremoloEvents(ctx: VoiceContext, pos: Position, start: real, sub: real, n: nat,
                         pitch: int, other: int, muted: bool, velocity: Velocity): (r: seq<MidiEvent>)
    ensures |r| == 2 * n
  {
    if n == 0 then []
    else TremoloEvents(ctx, pos, start, sub, n - 1, pitch, other, muted, velocity)
         + TremoloPass(ctx, pos, start, sub, pitch, other, muted, velocity, n - 1)
  }

  /** Entries 2k and 2k + 1 of the tremolo events are the two events of pass k. */
  lemma {:induction false} TremoloAt(ctx: VoiceContext, pos: Position, start: real, sub: real, n: nat,
                                     pitch: int, other: int, muted: bool, velocity: Velocity)
    ensures var r := TremoloEvents(ctx, pos, start, sub, n, pitch, other, muted, velocity);
            forall k :: 0 <= k < n ==>
              r[2 * k] == TremoloPass(ctx, pos, start, sub, pitch, other, muted, velocity, k)[0]
              && r[2 * k + 1] == TremoloPass(ctx, pos, start, sub, pitch, other, muted, velocity, k)[1]
  {
    if n > 0 {
      TremoloAt(ctx, pos, start, sub, n - 1, pitch, other, muted, velocity);
    }
  }

  /** The loop copying the bend samples into pitch-bend events of the position. */
  function BendEvents(ctx: VoiceContext, pos: Position, samples: seq<BendEventInfo>): (r: seq<MidiEvent>)
    ensures |r| == |samples|
  {
    if samples == [] then []
    else
      var e := samples[|samples| - 1];
      BendEvents(ctx, pos, samples[..|samples| - 1]) + [Ev(ctx, pos, e.timestamp, PitchBend(e.amount))]
  }

  /** Every sample becomes one pitch-bend event, in order, at the sample's time. */
  lemma {:induction false} BendEventsAt(ctx: VoiceContext, pos: Position, samples: seq<BendEventInfo>)
    ensures var r := BendEvents(ctx, pos, samples);
            forall i :: 0 <= i < |r| ==> r[i] == Ev(ctx, pos, samples[i].timestamp, PitchBend(samples[i].amount))
  {
    if samples != [] {
      BendEventsAt(ctx, pos, samples[..|samples| - 1]);
    }
  }

  /** How long a note sounds: half for staccato, shortened by the palm-muting factor. */
  function NoteLength(pos: Position, duration: real): real {
    if pos.isStaccato then duration / 2.0
    else if pos.hasPalmMuting then duration / 1.15
    else duration
  }

  /** One pass of the note loop as the note sees it: the position (index and contents), the
      tempo, the cursor and duration after the arpeggio shift, the pitch wheel before the
      note, and the note. */
  datatype NoteCall = NoteCall(j: nat, pos: Position, tempo: real, startTime: real, duration: real,
                               pitchBend: int, note: Note)

  /** The events a pass of the note loop emits for its note. The walk below is written over
      any emitter; the player's is PlayerNoteEvents. */
  type NoteEmitter = (VoiceContext, NoteCall) -> seq<MidiEvent>

  /** What the note code needs: a positive tempo and the note on a string of the guitar. */
  predicate CallFits(ctx: VoiceContext, call: NoteCall) {
    call.tempo > 0.0 && call.note.stringIndex < |ctx.guitar.tuning|
  }

  /** The pitch a note stops with: a tied note takes the pitch of the previous note on its
      string (which lies on the same string, so on the guitar). */
  function SoundingPitch(ctx: VoiceContext, call: NoteCall): nat
    requires call.note.stringIndex < |ctx.guitar.tuning|
  {
    var prev := ctx.q.adjacentNote(PrevNote, ctx.systemIndex, ctx.staffIndex, ctx.voice, call.j, call.note);
    if call.note.isTied && prev.Some? && prev.value.stringIndex < |ctx.guitar.tuning|
    then ActualNotePitch(ctx.q, ctx.guitar, prev.value)
    else ActualNotePitch(ctx.q, ctx.guitar, call.note)
  }

  function IsTremolo(pos: Position, note: Note): bool {
    pos.hasTremoloPicking || note.trill.Some?
  }

  /** The pitch a trill alternates with: the pitch moved by the note's fret minus the
      trill fret, in uint32 arithmetic; the pitch itself for tremolo picking. */
  function TrillPitch(pitch: nat, note: Note): nat {
    if note.trill.Some? then U32(pitch + (note.fret - note.trill.value)) else pitch
  }

  function TiedToNextNote(ctx: VoiceContext, call: NoteCall): bool {
    var next := ctx.q.adjacentNote(NextNote, ctx.systemIndex, ctx.staffIndex, ctx.voice, call.j, call.note);
    next.Some? && next.value.isTied
  }

  /** The play event of a note: none for a note tied to the previous one. */
  function PlayEvent(ctx: VoiceContext, call: NoteCall): seq<MidiEvent>
    requires call.note.stringIndex < |ctx.guitar.tuning|
  {
    var note := call.note;
    if note.isTied then []
    else [Ev(ctx, call.pos, call.startTime, PlayNote(call.duration, ActualNotePitch(ctx.q, ctx.guitar, note),
                                                     note.isMuted, NoteVelocity(call.pos, note)))]
  }

  /** The pitch-wheel samples of a note: its slides, then its bend. */
  function NoteSamples(c: PlayerConstants, call: NoteCall): seq<BendEventInfo> {
    var note := call.note;
    (if HasSlide(note) then SlideSamples(c, call.startTime, call.duration, call.tempo, note) else [])
    + (if note.bend.Some? then BendSamples(c, call.startTime, call.duration, call.tempo, note.bend.value, call.pitchBend)
       else [])
  }

  /** The number of tremolo passes of a note: none without tremolo picking or trill. */
  function TremoloPasses(call: NoteCall): nat
    requires call.tempo > 0.0
  {
    if IsTremolo(call.pos, call.note) then TremoloCount(call.duration, call.tempo) else 0
  }

  /** The tremolo events of a note: 32nd notes alternating the sounding and trill pitches. */
  function NoteTremolo(ctx: VoiceContext, call: NoteCall): seq<MidiEvent>
    requires CallFits(ctx, call)
  {
    var pitch := SoundingPitch(ctx, call);
    TremoloEvents(ctx, call.pos, call.startTime, call.tempo / 8.0, TremoloPasses(call), pitch,
                  TrillPitch(pitch, call.note), call.note.isMuted, NoteVelocity(call.pos, call.note))
  }

  /** The pitch sounding when a note ends: after an odd number of trill passes, the trill pitch. */
  function LastPitch(ctx: VoiceContext, call: NoteCall): nat
    requires CallFits(ctx, call)
  {
    var pitch := SoundingPitch(ctx, call);
    Alternate(pitch, TrillPitch(pitch, call.note), TremoloPasses(call))
  }

  /** The stop event of a note: none when it is tie-wrapped or the next note on its string
      is tied to it. */
  function StopEvent(ctx: VoiceContext, call: NoteCall, pitch: int): seq<MidiEvent> {
    if !call.note.hasTieWrap && !TiedToNextNote(ctx, call)
    then [Ev(ctx, call.pos, call.startTime + NoteLength(call.pos, call.duration), StopNote(pitch))]
    else []
  }

  /** The events of one note, in the order the player emits them: the note itself, its
      slides and bends, its tremolo, its stop note. */
  function NoteEvents(ctx: VoiceContext, call: NoteCall): seq<MidiEvent>
    requires CallFits(ctx, call)
  {
    PlayEvent(ctx, call)
    + BendEvents(ctx, call.pos, NoteSamples(ctx.c, call))
    + NoteTremolo(ctx, call)
    + StopEvent(ctx, call, LastPitch(ctx, call))
  }

  /** The player's emitter: a note's events, none for a call the note code cannot serve. */
  function PlayerNoteEvents(ctx: VoiceContext, call: NoteCall): seq<MidiEvent> {
    if CallFits(ctx, call) then NoteEvents(ctx, call) else []
  }

  /** The state the note loop updates: the cursor and duration (moved by arpeggios), the
      pitch wheel carried between bends, and the event list. */
  datatype NoteState = NoteState(startTime: real, duration: real, pitchBend: int, events: seq<MidiEvent>)

  /** One pass of the note loop: shift for the arpeggio, emit the note, carry the pitch wheel. */
  function NoteStep(ctx: VoiceContext, emit: NoteEmitter, j: nat, pos: Position, tempo: real, st: NoteState,
                    note: Note): NoteState
  {
    var startTime := if HasArpeggio(pos) then st.startTime + ctx.c.arpeggioOffset else st.startTime;
    var duration := if HasArpeggio(pos) then st.duration - ctx.c.arpeggioOffset else st.duration;
    var pitchBend := if note.bend.Some? then NextActivePitchBend(ctx.c, note.bend.value) else st.pitchBend;
    NoteState(startTime, duration, pitchBend,
              st.events + emit(ctx, NoteCall(j, pos, tempo, startTime, duration, st.pitchBend, note)))
  }

  /** The note loop after its first k passes. */
  function NotesUpTo(ctx: VoiceContext, emit: NoteEmitter, j: nat, pos: Position, tempo: real, notes: seq<Note>,
                     st0: NoteState, k: nat): NoteState
    requires k <= |notes|
  {
    if k == 0 then st0
    else NoteStep(ctx, emit, j, pos, tempo, NotesUpTo(ctx, emit, j, pos, tempo, notes, st0, k - 1), notes[k - 1])
  }

  /** The state the position loop updates. */
  datatype VoiceState = VoiceState(startTime: real, endTime: real, letRingActive: bool, pitchBend: int, events: seq<MidiEvent>)

  /** The duration of position j before the grace-note rule: a lone whole rest lasts its bar. */
  function PositionDuration(ctx: VoiceContext, j: nat): (d: real)
    requires j < |ctx.positions|
    ensures d >= 0.0
  {
    var pos := ctx.positions[j];
    var tempo := CurrentTempo(ctx.c, ctx.markers, ctx.currentSystemIndex, pos.position);
    var duration := NoteDuration(ctx.c, ctx.markers, ctx.currentSystemIndex, pos);
    if pos.isRest && pos.durationType == 1 then
      WholeRestDuration(tempo, ctx.q.isOnlyPositionInBar(ctx.systemIndex, ctx.staffIndex, ctx.voice, j),
                        ctx.q.precedingBarline(ctx.systemIndex, pos.position), duration)
    else duration
  }

  /** The vibrato events of a position: on at its start, off at its end. */
  function VibratoEvents(ctx: VoiceContext, pos: Position, startTime: real, duration: real): seq<MidiEvent> {
    if pos.hasVibrato || pos.hasWideVibrato then
      [Ev(ctx, pos, startTime, VibratoOn(if pos.hasVibrato then NormalVibrato else WideVibrato)),
       Ev(ctx, pos, startTime + duration, VibratoOff)]
    else []
  }

  datatype LetRingStep = LetRingStep(events: seq<MidiEvent>, active: bool)

  /** The let-ring decision at position j: switch on, switch off, or close an open span
      at the last position of the voice. */
  function LetRingAt(ctx: VoiceContext, j: nat, pos: Position, startTime: real, duration: real, active: bool): LetRingStep {
    if pos.hasLetRing && !active then LetRingStep([Ev(ctx, pos, startTime, LetRingOn)], true)
    else if !pos.hasLetRing && active then LetRingStep([Ev(ctx, pos, startTime, LetRingOff)], false)
    else if active && j == |ctx.positions| - 1 then LetRingStep([Ev(ctx, pos, startTime + duration, LetRingOff)], false)
    else LetRingStep([], active)
  }

  /** Whether let ring is on after sounding position j: the state the decision leaves. */
  function LetRingNext(ctx: VoiceContext, j: nat, pos: Position, active: bool): bool {
    if pos.hasLetRing && !active then true
    else if !pos.hasLetRing && active then false
    else if active && j == |ctx.positions| - 1 then false
    else active
  }

  /** The duration the notes of a sounding position are given: a grace note's fixed length. */
  function PlayedDuration(ctx: VoiceContext, j: nat): real
    requires j < |ctx.positions|
  {
    if ctx.positions[j].isAcciaccatura then ctx.c.graceNoteDuration as real else PositionDuration(ctx, j)
  }

  /** Where the notes of a sounding position start: a grace note is moved back by its length. */
  function PlayedStart(ctx: VoiceContext, vs: VoiceState, j: nat): real
    requires j < |ctx.positions|
  {
    if ctx.positions[j].isAcciaccatura then vs.startTime - PlayedDuration(ctx, j) else vs.startTime
  }

  /** The let-ring decision of a sounding position. */
  function PositionLetRingStep(ctx: VoiceContext, vs: VoiceState, j: nat): LetRingStep
    requires j < |ctx.positions|
  {
    LetRingAt(ctx, j, ctx.positions[j], PlayedStart(ctx, vs, j), PlayedDuration(ctx, j), vs.letRingActive)
  }

  /** The note-loop state before the first note of a sounding position: vibrato and
      let-ring events appended. */
  function NotesStart(ctx: VoiceContext, vs: VoiceState, j: nat): NoteState
    requires j < |ctx.positions|
  {
    var pos := ctx.positions[j];
    var startTime := PlayedStart(ctx, vs, j);
    var duration := PlayedDuration(ctx, j);
    NoteState(startTime, duration, vs.pitchBend,
              vs.events + VibratoEvents(ctx, pos, startTime, duration) + PositionLetRingStep(ctx, vs, j).events)
  }

  /** The note loop over all the notes of a sounding position, in played order. */
  function PositionNotes(ctx: VoiceContext, emit: NoteEmitter, vs: VoiceState, j: nat): NoteState
    requires j < |ctx.positions|
  {
    var pos := ctx.positions[j];
    var notes := PlayedNotes(ctx.q, pos);
    NotesUpTo(ctx, emit, j, pos, CurrentTempo(ctx.c, ctx.markers, ctx.currentSystemIndex, pos.position), notes,
              NotesStart(ctx, vs, j), |notes|)
  }

  /** One pass of the position loop. */
  function PositionStep(ctx: VoiceContext, emit: NoteEmitter, vs: VoiceState, j: nat): VoiceState
    requires j < |ctx.positions|
  {
    if ctx.positions[j].isRest then
      var startTime := vs.startTime + PositionDuration(ctx, j);
      vs.(startTime := startTime, endTime := Max(vs.endTime, startTime))
    else
      var st := PositionNotes(ctx, emit, vs, j);
      var startTime := st.startTime + st.duration;
      VoiceState(startTime, Max(vs.endTime, startTime), PositionLetRingStep(ctx, vs, j).active, st.pitchBend, st.events)
  }

  /** The state after the first j passes of a loop whose pass is `step`. */
  function Iterate<S>(step: (S, nat) -> S, s0: S, j: nat): S {
    if j == 0 then s0 else step(Iterate(step, s0, j - 1), j - 1)
  }

  /** The position loop's pass as a function value, the identity past the last position. */
  function PassOf(ctx: VoiceContext, emit: NoteEmitter): (VoiceState, nat) -> VoiceState {
    (vs: VoiceState, k: nat) => if k < |ctx.positions| then PositionStep(ctx, emit, vs, k) else vs
  }

  /** The position loop after its first j passes. */
  function VoiceUpTo(ctx: VoiceContext, emit: NoteEmitter, vs0: VoiceState, j: nat): VoiceState
    requires j <= |ctx.positions|
  {
    Iterate(PassOf(ctx, emit), vs0, j)
  }

  /** The state at the start of a voice: cursor at the system start, let ring off, the
      pitch wheel at its default. */
  function VoiceStart(c: PlayerConstants, systemStartTime: real, endTime: real, events: seq<MidiEvent>): VoiceState {
    VoiceState(systemStartTime, endTime, false, c.defaultBend, events)
  }

  /** What the staff and voice loops carry: the end time, the pitch-wheel field and the events. */
  datatype SystemState = SystemState(endTime: real, pitchBend: int, events: seq<MidiEvent>)

  /** The context of a voice of a staff: the staff's guitar and the voice's positions. */
  function ContextOf(c: PlayerConstants, q: ScoreQueries, score: Score, currentSystemIndex: nat, systemIndex: nat,
                     staffIndex: nat, voice: nat): VoiceContext
    requires systemIndex < |score.systems| && PlayableScore(score)
    requires staffIndex < |score.systems[systemIndex].staves| && voice < NUM_STAFF_VOICES
  {
    var system := score.systems[systemIndex];
    assert SystemFits(score.guitars, system);
    var staff := system.staves[staffIndex];
    VoiceContext(c, q, score.tempoMarkers, currentSystemIndex, systemIndex, staffIndex, voice,
                 score.guitars[staffIndex], staff.voices[voice])
  }

  /** One pass of the voice loop of a staff: voice v is walked from the system start, with
      let ring off and the pitch wheel at its default, after everything generated so far. */
  function VoicePass(c: PlayerConstants, q: ScoreQueries, score: Score, emit: NoteEmitter, currentSystemIndex: nat,
                     systemIndex: nat, staffIndex: nat, systemStartTime: real, before: SystemState, v: nat): SystemState
    requires systemIndex < |score.systems| && PlayableScore(score)
    requires staffIndex < |score.systems[systemIndex].staves| && v < NUM_STAFF_VOICES
  {
    var ctx := ContextOf(c, q, score, currentSystemIndex, systemIndex, staffIndex, v);
    var vs := VoiceUpTo(ctx, emit, VoiceStart(c, systemStartTime, before.endTime, before.events), |ctx.positions|);
    SystemState(vs.endTime, vs.pitchBend, vs.events)
  }

  /** The voice loop's pass as a function value, the identity past the last voice. */
  function VoicePassOf(c: PlayerConstants, q: ScoreQueries, score: Score, emit: NoteEmitter, currentSystemIndex: nat,
                       systemIndex: nat, staffIndex: nat, systemStartTime: real): (SystemState, nat) -> SystemState
    requires systemIndex < |score.systems| && PlayableScore(score)
    requires staffIndex < |score.systems[systemIndex].staves|
  {
    (s: SystemState, v: nat) =>
      if v < NUM_STAFF_VOICES
      then VoicePass(c, q, score, emit, currentSystemIndex, systemIndex, staffIndex, systemStartTime, s, v)
      else s
  }

  /** The voice loop of a staff after its first v passes. */
  function VoicesUpTo(c: PlayerConstants, q: ScoreQueries, score: Score, emit: NoteEmitter, currentSystemIndex: nat,
                      systemIndex: nat, staffIndex: nat, systemStartTime: real, s0: SystemState, v: nat): SystemState
    requires systemIndex < |score.systems| && PlayableScore(score)
    requires staffIndex < |score.systems[systemIndex].staves| && v <= NUM_STAFF_VOICES
  {
    Iterate(VoicePassOf(c, q, score, emit, currentSystemIndex, systemIndex, staffIndex, systemStartTime), s0, v)
  }

  /** The staff loop's pass as a function value: the voice loop of staff i, the identity
      past the last staff. */
  function StaffPassOf(c: PlayerConstants, q: ScoreQueries, score: Score, emit: NoteEmitter, currentSystemIndex: nat,
                       systemIndex: nat, systemStartTime: real): (SystemState, nat) -> SystemState
    requires systemIndex < |score.systems| && PlayableScore(score)
  {
    (s: SystemState, i: nat) =>
      if i < |score.systems[systemIndex].staves|
      then VoicesUpTo(c, q, score, emit, currentSystemIndex, systemIndex, i, systemStartTime, s, NUM_STAFF_VOICES)
      else s
  }

  /** The staff loop after its first i passes. */
  function StavesUpTo(c: PlayerConstants, q: ScoreQueries, score: Score, emit: NoteEmitter, currentSystemIndex: nat,
                      systemIndex: nat, systemStartTime: real, s0: SystemState, i: nat): SystemState
    requires systemIndex < |score.systems| && PlayableScore(score)
    requires i <= |score.systems[systemIndex].staves|
  {
    Iterate(StaffPassOf(c, q, score, emit, currentSystemIndex, systemIndex, systemStartTime), s0, i)
  }

  /** generateEventsForSystem: the events appended, the returned end time and the pitch-wheel
      field after it. */
  function SystemEvents(c: PlayerConstants, q: ScoreQueries, score: Score, emit: NoteEmitter, currentSystemIndex: nat,
                        systemIndex: nat, systemStartTime: real, pitchBend: int, events: seq<MidiEvent>): SystemState
    requires systemIndex < |score.systems| && PlayableScore(score)
  {
    StavesUpTo(c, q, score, emit, currentSystemIndex, systemIndex, systemStartTime,
               SystemState(systemStartTime, pitchBend, events), |score.systems[systemIndex].staves|)
  }

  // ---------------------------------------------------------------------------------
  // Timing of the walk

  /** The note loop moves the cursor by the arpeggio offset per note and shortens the
      duration by as much, so the notes end where the position ends; events are only appended. */
  lemma {:induction false} NotesKeepEnd(ctx: VoiceContext, emit: NoteEmitter, j: nat, pos: Position, tempo: real,
                                        notes: seq<Note>, st0: NoteState, k: nat)
    requires k <= |notes|
    ensures var st := NotesUpTo(ctx, emit, j, pos, tempo, notes, st0, k);
            && st.startTime + st.duration == st0.startTime + st0.duration
            && (!HasArpeggio(pos) ==> st.startTime == st0.startTime)
            && (HasArpeggio(pos) ==> st.startTime == st0.startTime + (k as real) * (ctx.c.arpeggioOffset as real))
            && st0.events <= st.events
  {
    if k > 0 {
      NotesKeepEnd(ctx, emit, j, pos, tempo, notes, st0, k - 1);
      var o := ctx.c.arpeggioOffset as real;
      assert (k as real) * o == ((k - 1) as real) * o + o;
    }
  }

  /** One position moves the cursor by its duration: a rest by its (whole-rest adjusted)
      duration, a grace note not at all, since it starts early by exactly its length;
      the end time is the latest cursor seen; events are only appended, and a rest adds none. */
  lemma PositionAdvance(ctx: VoiceContext, emit: NoteEmitter, vs: VoiceState, j: nat)
    requires j < |ctx.positions|
    ensures var r := PositionStep(ctx, emit, vs, j);
            var pos := ctx.positions[j];
            && r.startTime == vs.startTime + (if !pos.isRest && pos.isAcciaccatura then 0.0 else PositionDuration(ctx, j))
            && r.endTime == Max(vs.endTime, r.startTime)
            && vs.events <= r.events
            && (pos.isRest ==> r.events == vs.events && r.letRingActive == vs.letRingActive && r.pitchBend == vs.pitchBend)
  {
    var pos := ctx.positions[j];
    if !pos.isRest {
      var tempo := CurrentTempo(ctx.c, ctx.markers, ctx.currentSystemIndex, pos.position);
      NotesKeepEnd(ctx, emit, j, pos, tempo, PlayedNotes(ctx.q, pos), NotesStart(ctx, vs, j), |PlayedNotes(ctx.q, pos)|);
    }
  }

  /** Passes that never move the cursor back, take the end time to the later of the old
      end and the new cursor, and only append events. */
  ghost predicate Advances(step: (VoiceState, nat) -> VoiceState, n: nat) {
    forall vs: VoiceState, k: nat {:trigger step(vs, k)} :: k < n ==>
      && step(vs, k).startTime >= vs.startTime
      && step(vs, k).endTime == Max(vs.endTime, step(vs, k).startTime)
      && vs.events <= step(vs, k).events
  }

  /** Every pass of the position loop advances. */
  lemma PassAdvances(ctx: VoiceContext, emit: NoteEmitter)
    ensures Advances(PassOf(ctx, emit), |ctx.positions|)
  {
    forall vs: VoiceState, k: nat | k < |ctx.positions|
      ensures var r := PassOf(ctx, emit)(vs, k);
              r.startTime >= vs.startTime && r.endTime == Max(vs.endTime, r.startTime) && vs.events <= r.events
    {
      PositionAdvance(ctx, emit, vs, k);
    }
  }

  /** Iterating passes that advance never moves the cursor back, never lowers the end time,
      leaves the end time at least the cursor once a pass was made, and only appends. */
  lemma {:induction false} IterateAdvances(step: (VoiceState, nat) -> VoiceState, vs0: VoiceState, j: nat, n: nat)
    requires j <= n && Advances(step, n)
    ensures var r := Iterate(step, vs0, j);
            && r.startTime >= vs0.startTime
            && r.endTime >= vs0.endTime
            && (j > 0 ==> r.endTime >= r.startTime)
            && vs0.events <= r.events
  {
    if j > 0 {
      IterateAdvances(step, vs0, j - 1, n);
      var vs := Iterate(step, vs0, j - 1);
      assert Iterate(step, vs0, j) == step(vs, j - 1);
    }
  }

  /** Along a voice the cursor never moves back, the end time never decreases and, once a
      position was walked, is at least the cursor; events are only appended. */
  lemma VoiceProgress(ctx: VoiceContext, emit: NoteEmitter, vs0: VoiceState, j: nat)
    requires j <= |ctx.positions|
    ensures var r := VoiceUpTo(ctx, emit, vs0, j);
            && r.startTime >= vs0.startTime
            && r.endTime >= vs0.endTime
            && (j > 0 ==> r.endTime >= r.startTime)
            && vs0.events <= r.events
  {
    PassAdvances(ctx, emit);
    IterateAdvances(PassOf(ctx, emit), vs0, j, |ctx.positions|);
  }

  /** Passes that never lower the end time and only append events. */
  ghost predicate Extends(step: (SystemState, nat) -> SystemState, n: nat) {
    forall s: SystemState, k: nat {:trigger step(s, k)} :: k < n ==>
      step(s, k).endTime >= s.endTime && s.events <= step(s, k).events
  }

  /** Iterating passes that extend never lowers the end time and only appends. */
  lemma {:induction false} IterateExtends(step: (SystemState, nat) -> SystemState, s0: SystemState, j: nat, n: nat)
    requires j <= n && Extends(step, n)
    ensures Iterate(step, s0, j).endTime >= s0.endTime && s0.events <= Iterate(step, s0, j).events
  {
    if j > 0 {
      IterateExtends(step, s0, j - 1, n);
      var s := Iterate(step, s0, j - 1);
      assert Iterate(step, s0, j) == step(s, j - 1);
    }
  }

  /** The voice loop of a staff keeps the end time from decreasing and only appends. */
  lemma VoicesProgress(c: PlayerConstants, q: ScoreQueries, score: Score, emit: NoteEmitter,
                       currentSystemIndex: nat, systemIndex: nat, staffIndex: nat,
                       systemStartTime: real, s0: SystemState, v: nat)
    requires systemIndex < |score.systems| && PlayableScore(score)
    requires staffIndex < |score.systems[systemIndex].staves| && v <= NUM_STAFF_VOICES
    ensures var r := VoicesUpTo(c, q, score, emit, currentSystemIndex, systemIndex, staffIndex, systemStartTime, s0, v);
            r.endTime >= s0.endTime && s0.events <= r.events
  {
    var step := VoicePassOf(c, q, score, emit, currentSystemIndex, systemIndex, staffIndex, systemStartTime);
    forall s: SystemState, k: nat | k < NUM_STAFF_VOICES
      ensures step(s, k).endTime >= s.endTime && s.events <= step(s, k).events
    {
      var ctx := ContextOf(c, q, score, currentSystemIndex, systemIndex, staffIndex, k);
      VoiceProgress(ctx, emit, VoiceStart(c, systemStartTime, s.endTime, s.events), |ctx.positions|);
    }
    IterateExtends(step, s0, v, NUM_STAFF_VOICES);
  }

  /** The staff loop keeps the end time from decreasing and only appends. */
  lemma StavesProgress(c: PlayerConstants, q: ScoreQueries, score: Score, emit: NoteEmitter,
                       currentSystemIndex: nat, systemIndex: nat, systemStartTime: real,
                       s0: SystemState, i: nat)
    requires systemIndex < |score.systems| && PlayableScore(score)
    requires i <= |score.systems[systemIndex].staves|
    ensures var r := StavesUpTo(c, q, score, emit, currentSystemIndex, systemIndex, systemStartTime, s0, i);
            r.endTime >= s0.endTime && s0.events <= r.events
  {
    var step := StaffPassOf(c, q, score, emit, currentSystemIndex, systemIndex, systemStartTime);
    forall s: SystemState, k: nat | k < |score.systems[systemIndex].staves|
      ensures step(s, k).endTime >= s.endTime && s.events <= step(s, k).events
    {
      VoicesProgress(c, q, score, emit, currentSystemIndex, systemIndex, k, systemStartTime, s, NUM_STAFF_VOICES);
    }
    IterateExtends(step, s0, i, |score.systems[systemIndex].staves|);
  }

  /** generateEventsForSystem returns an end time no earlier than the system's start and
      keeps the events generated before it. */
  lemma SystemEndsAfterStart(c: PlayerConstants, q: ScoreQueries, score: Score, emit: NoteEmitter,
                             currentSystemIndex: nat, systemIndex: nat, systemStartTime: real, pitchBend: int,
                             events: seq<MidiEvent>)
    requires systemIndex < |score.systems| && PlayableScore(score)
    ensures var r := SystemEvents(c, q, score, emit, currentSystemIndex, systemIndex, systemStartTime, pitchBend, events);
            r.endTime >= systemStartTime && events <= r.events
  {
    StavesProgress(c, q, score, emit, currentSystemIndex, systemIndex, systemStartTime,
                   SystemState(systemStartTime, pitchBend, events), |score.systems[systemIndex].staves|);
  }

  // ---------------------------------------------------------------------------------
  // Kinds of events

  predicate NoLetRing(es: seq<MidiEvent>) {
    forall i :: 0 <= i < |es| ==> !es[i].kind.LetRingOn? && !es[i].kind.LetRingOff?
  }

  predicate NoPlayNote(es: seq<MidiEvent>) {
    forall i :: 0 <= i < |es| ==> !es[i].kind.PlayNote?
  }

  predicate NoStopNote(es: seq<MidiEvent>) {
    forall i :: 0 <= i < |es| ==> !es[i].kind.StopNote?
  }

  lemma KindsConcat(a: seq<MidiEvent>, b: seq<MidiEvent>)
    ensures NoLetRing(a) && NoLetRing(b) ==> NoLetRing(a + b)
    ensures NoPlayNote(a) && NoPlayNote(b) ==> NoPlayNote(a + b)
    ensures NoStopNote(a) && NoStopNote(b) ==> NoStopNote(a + b)
  {
    forall i | |a| <= i < |a + b| ensures (a + b)[i] == b[i - |a|] {
    }
  }

  /** Bend samples become pitch-bend events only. */
  lemma BendEventsKinds(ctx: VoiceContext, pos: Position, samples: seq<BendEventInfo>)
    ensures var r := BendEvents(ctx, pos, samples);
            NoLetRing(r) && NoPlayNote(r) && NoStopNote(r)
  {
    BendEventsAt(ctx, pos, samples);
  }

  /** The tremolo loop emits play and stop events only. */
  lemma {:induction false} TremoloNoLetRing(ctx: VoiceContext, pos: Position, start: real, sub: real, n: nat,
                                            pitch: int, other: int, muted: bool, velocity: Velocity)
    ensures NoLetRing(TremoloEvents(ctx, pos, start, sub, n, pitch, other, muted, velocity))
  {
    if n > 0 {
      TremoloNoLetRing(ctx, pos, start, sub, n - 1, pitch, other, muted, velocity);
      KindsConcat(TremoloEvents(ctx, pos, start, sub, n - 1, pitch, other, muted, velocity),
                  TremoloPass(ctx, pos, start, sub, pitch, other, muted, velocity, n - 1));
    }
  }

  /** A note's events never switch let ring. */
  lemma NoteEventsNoLetRing(ctx: VoiceContext, call: NoteCall)
    requires CallFits(ctx, call)
    ensures NoLetRing(NoteEvents(ctx, call))
  {
    var play := PlayEvent(ctx, call);
    var bends := BendEvents(ctx, call.pos, NoteSamples(ctx.c, call));
    var trem := NoteTremolo(ctx, call);
    var stop := StopEvent(ctx, call, LastPitch(ctx, call));
    assert NoLetRing(play);
    BendEventsKinds(ctx, call.pos, NoteSamples(ctx.c, call));
    var pitch := SoundingPitch(ctx, call);
    TremoloNoLetRing(ctx, call.pos, call.startTime, call.tempo / 8.0, TremoloPasses(call), pitch,
                     TrillPitch(pitch, call.note), call.note.isMuted, NoteVelocity(call.pos, call.note));
    assert NoLetRing(stop);
    KindsOfParts(play, bends, trem, stop);
  }

  /** Four runs, one after the other, hold no event of a kind that none of them holds. */
  lemma KindsOfParts(a: seq<MidiEvent>, b: seq<MidiEvent>, c: seq<MidiEvent>, d: seq<MidiEvent>)
    ensures NoLetRing(a) && NoLetRing(b) && NoLetRing(c) && NoLetRing(d) ==> NoLetRing(a + b + c + d)
    ensures NoPlayNote(a) && NoPlayNote(b) && NoPlayNote(c) && NoPlayNote(d) ==> NoPlayNote(a + b + c + d)
    ensures NoStopNote(a) && NoStopNote(b) && NoStopNote(c) && NoStopNote(d) ==> NoStopNote(a + b + c + d)
  {
    KindsConcat(a, b);
    KindsConcat(a + b, c);
    KindsConcat(a + b + c, d);
  }

  /** An emitter whose events never switch let ring. */
  ghost predicate EmitsNoLetRing(emit: NoteEmitter) {
    forall ctx, call :: NoLetRing(emit(ctx, call))
  }

  /** The player's note events never switch let ring: let ring is the position loop's alone. */
  lemma PlayerEmitsNoLetRing()
    ensures EmitsNoLetRing(PlayerNoteEvents)
  {
    forall ctx, call ensures NoLetRing(PlayerNoteEvents(ctx, call)) {
      if CallFits(ctx, call) {
        NoteEventsNoLetRing(ctx, call);
      }
    }
  }

  // ---------------------------------------------------------------------------------
  // Let ring

  /** The let-ring switch of one event: [true] for on, [false] for off, none otherwise. */
  function LetRingFlag(e: MidiEvent): seq<bool> {
    if e.kind.LetRingOn? then [true] else if e.kind.LetRingOff? then [false] else []
  }

  /** The switches of the first n elements, in order, each element contributing the
      switches `flag` gives it. */
  function Gather<T>(flag: T -> seq<bool>, es: seq<T>, n: nat): seq<bool>
    requires n <= |es|
  {
    if n == 0 then [] else Gather(flag, es, n - 1) + flag(es[n - 1])
  }

  /** The let-ring switches among the events, in order. */
  function LetRingFlags(es: seq<MidiEvent>): seq<bool> {
    Gather(LetRingFlag, es, |es|)
  }

  lemma {:induction false} GatherPrefix<T>(flag: T -> seq<bool>, a: seq<T>, b: seq<T>, k: nat)
    requires k <= |a|
    ensures Gather(flag, a + b, k) == Gather(flag, a, k)
  {
    if k > 0 {
      GatherPrefix(flag, a, b, k - 1);
      assert (a + b)[k - 1] == a[k - 1];
    }
  }

  lemma GatherSuffixStep<T>(flag: T -> seq<bool>, a: seq<T>, b: seq<T>, n: nat)
    requires |a| < n <= |a| + |b|
    requires Gather(flag, a + b, n - 1) == Gather(flag, a, |a|) + Gather(flag, b, n - 1 - |a|)
    ensures Gather(flag, a + b, n) == Gather(flag, a, |a|) + Gather(flag, b, n - |a|)
  {
    var x := Gather(flag, a, |a|);
    var y := Gather(flag, b, n - 1 - |a|);
    var f := flag(b[n - 1 - |a|]);
    assert (a + b)[n - 1] == b[n - 1 - |a|];
    assert Gather(flag, b, n - |a|) == y + f;
    assert (x + y) + f == x + (y + f);
  }

  lemma {:induction false} GatherSuffix<T>(flag: T -> seq<bool>, a: seq<T>, b: seq<T>, n: nat)
    requires |a| <= n <= |a| + |b|
    ensures Gather(flag, a + b, n) == Gather(flag, a, |a|) + Gather(flag, b, n - |a|)
  {
    if n == |a| {
      GatherPrefix(flag, a, b, |a|);
      assert Gather(flag, a, |a|) + [] == Gather(flag, a, |a|);
    } else {
      GatherSuffix(flag, a, b, n - 1);
      GatherSuffixStep(flag, a, b, n);
    }
  }

  lemma LetRingFlagsConcat(a: seq<MidiEvent>, b: seq<MidiEvent>)
    ensures LetRingFlags(a + b) == LetRingFlags(a) + LetRingFlags(b)
  {
    GatherSuffix(LetRingFlag, a, b, |a| + |b|);
  }

  lemma {:induction false} GatherNone<T>(flag: T -> seq<bool>, es: seq<T>, n: nat)
    requires n <= |es|
    requires forall i :: 0 <= i < n ==> flag(es[i]) == []
    ensures Gather(flag, es, n) == []
  {
    if n > 0 {
      GatherNone(flag, es, n - 1);
    }
  }

  lemma NoLetRingFlags(es: seq<MidiEvent>)
    requires NoLetRing(es)
    ensures LetRingFlags(es) == []
  {
    GatherNone(LetRingFlag, es, |es|);
  }

  /** Events without switches leave the switches of what they follow unchanged. */
  lemma AppendNoLetRing(a: seq<MidiEvent>, es: seq<MidiEvent>)
    requires NoLetRing(es)
    ensures LetRingFlags(a + es) == LetRingFlags(a)
  {
    NoLetRingFlags(es);
    LetRingFlagsConcat(a, es);
  }

  /** A run whose tail from m holds no let-ring event keeps that tail free of them when
      events without one are appended. */
  lemma NoLetRingExtend(b: seq<MidiEvent>, m: nat, es: seq<MidiEvent>)
    requires m <= |b| && NoLetRing(b[m..]) && NoLetRing(es)
    ensures NoLetRing((b + es)[m..])
  {
    assert (b + es)[m..] == b[m..] + es;
    KindsConcat(b[m..], es);
  }

  /** The note loop of an emitter that never switches let ring only appends events, and
      none of them is a let-ring switch. */
  lemma {:induction false} NotesKeepLetRing(ctx: VoiceContext, emit: NoteEmitter, j: nat, pos: Position, tempo: real,
                                            notes: seq<Note>, st0: NoteState, k: nat)
    requires k <= |notes| && EmitsNoLetRing(emit)
    ensures var st := NotesUpTo(ctx, emit, j, pos, tempo, notes, st0, k);
            st0.events <= st.events && NoLetRing(st.events[|st0.events|..])
  {
    if k == 0 {
      assert st0.events[|st0.events|..] == [];
    } else {
      var prev := NotesUpTo(ctx, emit, j, pos, tempo, notes, st0, k - 1);
      NotesKeepLetRing(ctx, emit, j, pos, tempo, notes, st0, k - 1);
      var startTime := if HasArpeggio(pos) then prev.startTime + ctx.c.arpeggioOffset else prev.startTime;
      var duration := if HasArpeggio(pos) then prev.duration - ctx.c.arpeggioOffset else prev.duration;
      var es := emit(ctx, NoteCall(j, pos, tempo, startTime, duration, prev.pitchBend, notes[k - 1]));
      assert NotesUpTo(ctx, emit, j, pos, tempo, notes, st0, k).events == prev.events + es;
      NoLetRingExtend(prev.events, |st0.events|, es);
    }
  }

  /** Switches that alternate on, off, on, ... */
  predicate OnOffAlternate(fs: seq<bool>) {
    forall i :: 0 <= i < |fs| ==> fs[i] == (i % 2 == 0)
  }

  /** Before its notes, a sounding position adds the switches of its let-ring decision:
      the vibrato events are no switches. */
  lemma NotesStartLetRing(ctx: VoiceContext, vs: VoiceState, j: nat)
    requires j < |ctx.positions|
    ensures LetRingFlags(NotesStart(ctx, vs, j).events)
            == LetRingFlags(vs.events) + LetRingFlags(PositionLetRingStep(ctx, vs, j).events)
  {
    var vib := VibratoEvents(ctx, ctx.positions[j], PlayedStart(ctx, vs, j), PlayedDuration(ctx, j));
    var step := PositionLetRingStep(ctx, vs, j);
    assert NotesStart(ctx, vs, j).events == vs.events + vib + step.events;
    LetRingFlagsConcat(vs.events + vib, step.events);
    AppendNoLetRing(vs.events, vib);
  }

  /** The let-ring switches a sounding position adds are those of its let-ring decision. */
  lemma PositionLetRing(ctx: VoiceContext, emit: NoteEmitter, vs: VoiceState, j: nat)
    requires j < |ctx.positions| && !ctx.positions[j].isRest && EmitsNoLetRing(emit)
    ensures var step := PositionLetRingStep(ctx, vs, j);
            && LetRingFlags(PositionStep(ctx, emit, vs, j).events) == LetRingFlags(vs.events) + LetRingFlags(step.events)
            && PositionStep(ctx, emit, vs, j).letRingActive == step.active
  {
    var pos := ctx.positions[j];
    var notes := PlayedNotes(ctx.q, pos);
    var start := NotesStart(ctx, vs, j);
    NotesKeepLetRing(ctx, emit, j, pos, CurrentTempo(ctx.c, ctx.markers, ctx.currentSystemIndex, pos.position), notes,
                     start, |notes|);
    NotesStartLetRing(ctx, vs, j);
    var es := PositionNotes(ctx, emit, vs, j).events;
    assert es == start.events + es[|start.events|..];
    AppendNoLetRing(start.events, es[|start.events|..]);
    assert PositionStep(ctx, emit, vs, j).events == es;
  }

  /** The switches of a single event are its own. */
  lemma FlagsOfOne(e: MidiEvent)
    ensures LetRingFlags([e]) == LetRingFlag(e)
  {
    assert Gather(LetRingFlag, [e], 0) + LetRingFlag(e) == LetRingFlag(e);
  }

  /** The let-ring decision emits one switch, to the new state, exactly when the state
      changes: on only when let ring is off, off only when it is on. */
  lemma LetRingSwitches(ctx: VoiceContext, j: nat, pos: Position, startTime: real, duration: real, active: bool)
    ensures var step := LetRingAt(ctx, j, pos, startTime, duration, active);
            && step.active == LetRingNext(ctx, j, pos, active)
            && LetRingFlags(step.events) == Change(active, step.active)
  {
    var step := LetRingAt(ctx, j, pos, startTime, duration, active);
    if step.events != [] {
      assert step.events == [step.events[0]];
      FlagsOfOne(step.events[0]);
    }
  }

  /** The switch a change of a boolean state makes: none when it stays, else the new state. */
  function Change(before: bool, after: bool): seq<bool> {
    if before == after then [] else [after]
  }

  /** The switches a boolean state makes along an iteration of `next`: one per change, to
      the new state. */
  function Switches(next: (bool, nat) -> bool, active0: bool, j: nat): seq<bool> {
    if j == 0 then []
    else Switches(next, active0, j - 1) + Change(Iterate(next, active0, j - 1), Iterate(next, active0, j))
  }

  /** Whatever the rule, a boolean state that starts off switches on, off, on, ... and is
      on exactly after an odd number of switches. */
  lemma {:induction false} SwitchesAlternate(next: (bool, nat) -> bool, j: nat)
    ensures OnOffAlternate(Switches(next, false, j))
    ensures Iterate(next, false, j) <==> |Switches(next, false, j)| % 2 == 1
  {
    if j > 0 {
      SwitchesAlternate(next, j - 1);
      assert Iterate(next, false, j) == next(Iterate(next, false, j - 1), j - 1);
    }
  }

  /** The let-ring state after a pass at position k that starts in state `active`: a rest
      keeps it, a sounding position takes its decision's. */
  function NextActive(ctx: VoiceContext, active: bool, k: nat): bool {
    if k < |ctx.positions| && !ctx.positions[k].isRest then LetRingNext(ctx, k, ctx.positions[k], active) else active
  }

  /** The let-ring rule of a voice as a function value. */
  function DecisionOf(ctx: VoiceContext): (bool, nat) -> bool {
    (active: bool, k: nat) => NextActive(ctx, active, k)
  }

  /** A pass of the position loop of an emitter that never switches let ring takes the state
      the rule gives and emits a switch exactly when the state changes. */
  lemma PositionSwitch(ctx: VoiceContext, emit: NoteEmitter, vs: VoiceState, j: nat)
    requires j < |ctx.positions| && EmitsNoLetRing(emit)
    ensures var r := PositionStep(ctx, emit, vs, j);
            && r.letRingActive == NextActive(ctx, vs.letRingActive, j)
            && LetRingFlags(r.events) == LetRingFlags(vs.events) + Change(vs.letRingActive, r.letRingActive)
  {
    var pos := ctx.positions[j];
    if pos.isRest {
      PositionAdvance(ctx, emit, vs, j);
      assert LetRingFlags(vs.events) + [] == LetRingFlags(vs.events);
    } else {
      PositionLetRing(ctx, emit, vs, j);
      LetRingSwitches(ctx, j, pos, PlayedStart(ctx, vs, j), PlayedDuration(ctx, j), vs.letRingActive);
    }
  }

  /** Every pass before position n takes the let-ring state `next` gives and emits one
      switch, to the new state, exactly when the state changes. */
  ghost predicate SwitchesAsDecided(step: (VoiceState, nat) -> VoiceState, next: (bool, nat) -> bool, n: nat) {
    forall vs: VoiceState, k: nat {:trigger step(vs, k)} :: k < n ==>
      && step(vs, k).letRingActive == next(vs.letRingActive, k)
      && LetRingFlags(step(vs, k).events) == LetRingFlags(vs.events) + Change(vs.letRingActive, step(vs, k).letRingActive)
  }

  /** The passes of an emitter that never switches let ring follow the voice's rule. */
  lemma PassSwitches(ctx: VoiceContext, emit: NoteEmitter)
    requires EmitsNoLetRing(emit)
    ensures SwitchesAsDecided(PassOf(ctx, emit), DecisionOf(ctx), |ctx.positions|)
  {
    forall vs: VoiceState, k: nat | k < |ctx.positions|
      ensures var r := PassOf(ctx, emit)(vs, k);
              && r.letRingActive == DecisionOf(ctx)(vs.letRingActive, k)
              && LetRingFlags(r.events) == LetRingFlags(vs.events) + Change(vs.letRingActive, r.letRingActive)
    {
      PositionSwitch(ctx, emit, vs, k);
    }
  }

  /** One more pass that follows the rule extends the state and the switches by one position. */
  lemma IterateStep(step: (VoiceState, nat) -> VoiceState, next: (bool, nat) -> bool, n: nat, vs0: VoiceState, j: nat)
    requires 0 < j <= n && SwitchesAsDecided(step, next, n)
    requires Iterate(step, vs0, j - 1).letRingActive == Iterate(next, vs0.letRingActive, j - 1)
    requires LetRingFlags(Iterate(step, vs0, j - 1).events) == LetRingFlags(vs0.events) + Switches(next, vs0.letRingActive, j - 1)
    ensures Iterate(step, vs0, j).letRingActive == Iterate(next, vs0.letRingActive, j)
    ensures LetRingFlags(Iterate(step, vs0, j).events) == LetRingFlags(vs0.events) + Switches(next, vs0.letRingActive, j)
  {
    var vs := Iterate(step, vs0, j - 1);
    var r := step(vs, j - 1);
    assert Iterate(step, vs0, j) == r;
    assert Iterate(next, vs0.letRingActive, j) == next(Iterate(next, vs0.letRingActive, j - 1), j - 1);
    var base := LetRingFlags(vs0.events);
    var sw := Switches(next, vs0.letRingActive, j - 1);
    var change := Change(vs.letRingActive, r.letRingActive);
    assert LetRingFlags(r.events) == LetRingFlags(vs.events) + change;
    assert (base + sw) + change == base + (sw + change);
  }

  /** Iterating passes that follow the rule keeps the state the rule gives and emits
      exactly its switches. */
  lemma {:induction false} IterateSwitches(step: (VoiceState, nat) -> VoiceState, next: (bool, nat) -> bool, n: nat,
                                           vs0: VoiceState, j: nat)
    requires j <= n && SwitchesAsDecided(step, next, n)
    ensures Iterate(step, vs0, j).letRingActive == Iterate(next, vs0.letRingActive, j)
    ensures LetRingFlags(Iterate(step, vs0, j).events) == LetRingFlags(vs0.events) + Switches(next, vs0.letRingActive, j)
  {
    if j == 0 {
      assert LetRingFlags(vs0.events) + [] == LetRingFlags(vs0.events);
    } else {
      IterateSwitches(step, next, n, vs0, j - 1);
      IterateStep(step, next, n, vs0, j);
    }
  }

  /** Along a voice that starts with let ring off, the switches it emits alternate on, off,
      on, ... and let ring is active exactly when an odd number of them was emitted. */
  lemma VoiceLetRing(ctx: VoiceContext, emit: NoteEmitter, vs0: VoiceState, j: nat)
    requires j <= |ctx.positions| && !vs0.letRingActive && EmitsNoLetRing(emit)
    ensures var r := VoiceUpTo(ctx, emit, vs0, j);
            var base := LetRingFlags(vs0.events);
            var fs := LetRingFlags(r.events);
            && base <= fs
            && OnOffAlternate(fs[|base|..])
            && (r.letRingActive <==> (|fs| - |base|) % 2 == 1)
  {
    PassSwitches(ctx, emit);
    IterateSwitches(PassOf(ctx, emit), DecisionOf(ctx), |ctx.positions|, vs0, j);
    SwitchesAlternate(DecisionOf(ctx), j);
    var base := LetRingFlags(vs0.events);
    var sw := Switches(DecisionOf(ctx), false, j);
    assert (base + sw)[|base|..] == sw;
  }

  /** At the last position of a voice a sounding let ring is switched off, even when the
      position itself asks for let ring; one that starts at the last position stays on. */
  lemma LetRingAtLastPosition(ctx: VoiceContext, emit: NoteEmitter, vs0: VoiceState)
    requires |ctx.positions| > 0
    ensures var n := |ctx.positions|;
            var before := VoiceUpTo(ctx, emit, vs0, n - 1);
            var last := ctx.positions[n - 1];
            VoiceUpTo(ctx, emit, vs0, n).letRingActive
              == (if last.isRest then before.letRingActive else last.hasLetRing && !before.letRingActive)
  {
    var n := |ctx.positions|;
    if ctx.positions[n - 1].isRest {
      PositionAdvance(ctx, emit, VoiceUpTo(ctx, emit, vs0, n - 1), n - 1);
    }
  }

  // ---------------------------------------------------------------------------------
  // Notes: ties, stops, tremolo

  /** A note that is not tied starts with its own play event at the (arpeggio adjusted)
      start time, with its resolved pitch and velocity. */
  lemma UntiedNoteIsPlayed(ctx: VoiceContext, call: NoteCall)
    requires CallFits(ctx, call) && !call.note.isTied
    ensures var es := NoteEvents(ctx, call);
            |es| > 0 && es[0] == Ev(ctx, call.pos, call.startTime,
                                    PlayNote(call.duration, ActualNotePitch(ctx.q, ctx.guitar, call.note),
                                             call.note.isMuted, NoteVelocity(call.pos, call.note)))
  {
  }

  /** A tied note without tremolo or trill is not played again, and when it is also
      tie-wrapped or tied into by the next note it sends no stop either: it only bends. */
  lemma TiedNoteIsNotReplayed(ctx: VoiceContext, call: NoteCall)
    requires CallFits(ctx, call) && call.note.isTied && !IsTremolo(call.pos, call.note)
    ensures var es := NoteEvents(ctx, call);
            && NoPlayNote(es)
            && (call.note.hasTieWrap || TiedToNextNote(ctx, call) ==> NoStopNote(es))
  {
    var play := PlayEvent(ctx, call);
    var bends := BendEvents(ctx, call.pos, NoteSamples(ctx.c, call));
    var trem := NoteTremolo(ctx, call);
    var stop := StopEvent(ctx, call, LastPitch(ctx, call));
    assert play == [];
    assert TremoloPasses(call) == 0;
    assert trem == [];
    BendEventsKinds(ctx, call.pos, NoteSamples(ctx.c, call));
    KindsOfParts(play, bends, trem, stop);
  }

  /** A note that is neither tie-wrapped nor tied into by the next note ends with a stop of
      the pitch it sounds last, at its start plus its length (halved for staccato, divided
      by 1.15 under palm muting); a note that is, ends with its tremolo, no stop. */
  lemma NoteStopRule(ctx: VoiceContext, call: NoteCall)
    requires CallFits(ctx, call)
    ensures var es := NoteEvents(ctx, call);
            && (!call.note.hasTieWrap && !TiedToNextNote(ctx, call) ==>
                  |es| > 0 && es[|es| - 1] == Ev(ctx, call.pos, call.startTime + NoteLength(call.pos, call.duration),
                                                 StopNote(LastPitch(ctx, call))))
            && (call.note.hasTieWrap || TiedToNextNote(ctx, call) ==>
                  es == PlayEvent(ctx, call) + BendEvents(ctx, call.pos, NoteSamples(ctx.c, call)) + NoteTremolo(ctx, call))
  {
  }

  /** A tied note stops with the pitch of the note it is tied to, so that the stop silences
      what is already sounding, also when harmonics make the two pitches differ. */
  lemma TiedNoteStopsPreviousPitch(ctx: VoiceContext, call: NoteCall, prev: Note)
    requires CallFits(ctx, call) && call.note.isTied && !IsTremolo(call.pos, call.note)
    requires ctx.q.adjacentNote(PrevNote, ctx.systemIndex, ctx.staffIndex, ctx.voice, call.j, call.note) == Some(prev)
    requires prev.stringIndex == call.note.stringIndex
    requires !call.note.hasTieWrap && !TiedToNextNote(ctx, call)
    ensures var es := NoteEvents(ctx, call);
            |es| > 0 && es[|es| - 1].kind == StopNote(ActualNotePitch(ctx.q, ctx.guitar, prev))
  {
    NoteStopRule(ctx, call);
  }

  lemma MulMonotone(a: real, b: real, s: real)
    requires a <= b && s >= 0.0
    ensures a * s <= b * s
  {
    assert (b - a) * s >= 0.0;
  }

  /** Pass k of n 32nd notes that fit in the duration starts no earlier than the start
      and ends no later than the end. */
  lemma PassWithin(start: real, sub: real, duration: real, k: nat, n: nat)
    requires sub > 0.0 && k < n && (n as real) * sub <= duration
    ensures start <= start + (k as real) * sub
    ensures start + (k as real) * sub + sub <= start + duration
  {
    MulMonotone(0.0, k as real, sub);
    MulMonotone((k + 1) as real, n as real, sub);
    assert ((k + 1) as real) * sub == (k as real) * sub + sub;
  }

  /** The tremolo sub-notes lie inside the note: when n 32nd notes fit in the duration,
      pass k stops and plays at the same time, no earlier than the note's start, and its
      32nd note ends no later than the note's end. Pass k stops the pitch at step k and
      plays the one at step k + 1, so each stop silences what the previous pass played. */
  lemma TremoloFits(ctx: VoiceContext, pos: Position, start: real, duration: real, sub: real, n: nat,
                    pitch: int, other: int, muted: bool, velocity: Velocity)
    requires sub > 0.0 && (n as real) * sub <= duration
    ensures var r := TremoloEvents(ctx, pos, start, sub, n, pitch, other, muted, velocity);
            && (forall k :: 0 <= k < n ==> start <= r[2 * k].startTime == r[2 * k + 1].startTime
                                           && r[2 * k].startTime + sub <= start + duration)
            && (forall k :: 0 <= k < n ==> r[2 * k].kind == StopNote(Alternate(pitch, other, k))
                                           && r[2 * k + 1].kind == PlayNote(sub, Alternate(pitch, other, k + 1), muted, velocity))
  {
    var r := TremoloEvents(ctx, pos, start, sub, n, pitch, other, muted, velocity);
    TremoloAt(ctx, pos, start, sub, n, pitch, other, muted, velocity);
    forall k | 0 <= k < n ensures start <= r[2 * k].startTime && r[2 * k].startTime + sub <= start + duration {
      PassWithin(start, sub, duration, k, n);
    }
  }

  /** The tremolo of a note of non-negative duration fits that duration: its count of
      32nd notes is the one TremoloCount gives. */
  lemma TremoloWithinNote(ctx: VoiceContext, pos: Position, start: real, duration: real, tempo: real,
                          pitch: int, other: int, muted: bool, velocity: Velocity)
    requires tempo > 0.0 && duration >= 0.0
    ensures var n := TremoloCount(duration, tempo);
            var sub := tempo / 8.0;
            var r := TremoloEvents(ctx, pos, start, sub, n, pitch, other, muted, velocity);
            && (forall k :: 0 <= k < n ==> start <= r[2 * k].startTime == r[2 * k + 1].startTime
                                           && r[2 * k].startTime + sub <= start + duration)
            && (forall k :: 0 <= k < n ==> r[2 * k].kind == StopNote(Alternate(pitch, other, k))
                                           && r[2 * k + 1].kind == PlayNote(sub, Alternate(pitch, other, k + 1), muted, velocity))
  {
    TremoloFits(ctx, pos, start, duration, tempo / 8.0, TremoloCount(duration, tempo), pitch, other, muted, velocity);
  }
}
