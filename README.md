# Power Tab Editor playback core, modelled in Dafny

This project models three parts of the Power Tab Editor's playback path and proves properties about them.

- **Musical directions** (`Direction`). A direction sits at a position of a system and holds up to three symbols, such as Coda, Segno, D.C. al Fine or To Coda. Each symbol is packed into 16 bits:
  - the symbol type is in bits 8-15;
  - the symbol that must be active for the direction to fire is in bits 6-7;
  - the repeat number that must be active is in bits 0-5.

  The model is the class `Directions.Direction`, with its symbol array as a `seq<bv16>` field. The packing is a codec, and its round trips are proved.
- **The repeat controller** (`RepeatController`). It indexes a score once and then, at each playback location, decides whether to jump and where. It indexes three things:
  - the repeat groups, as an ordered map keyed by `SystemLocation`, with a group at (0, 0) always present;
  - the direction symbols, as a multimap keyed by location;
  - a multimap from symbol type to location.

  The model is the class `RepeatControl.RepeatController`. Its maps are sorted sequences. The `Repeat` class and `DirectionSymbol::shouldPerformDirection` are opaque behaviour, passed in as a `RepeatBehaviour` record of functions.
- **MIDI event generation** (`MidiPlayer`). This covers the tempo-marker scan, note pitches and the harmonic table, velocities, bend and slide ramps, metronome ticks, and the per-voice walk of `generateEventsForSystem`. That walk tracks the voice cursor, let ring, grace notes and arpeggios, ties, tremolo and trill, and stop notes. The specification is written as functions in `Timing`, `Pitch`, `BendRamps`, `MetronomeTicks` and `EventGeneration`. The class `Player.MidiPlayer` then runs the loops as the source does, appending to an event list `seq<MidiEvent>` and updating its `activePitchBend` and `currentSystemIndex` fields. Each method is proved to produce exactly what those functions describe.

The model keeps these behaviours of the code as written:
- `indexDirections` always reads symbol 0 of a direction. A direction with n symbols therefore indexes n copies of its first symbol, and never its later ones (`SecondSymbolNotIndexed`).
- `checkForRepeat` uses the first element of `equal_range`. That is the lower bound, so the direction consulted is the first one at or after the current location, and it need not be at that location (`LaterDirectionIsConsulted`).
- `performMusicalDirection` starts `nextSymbol` at 0, which is Coda. So any type outside the jump families looks up a Coda.
- The tempo-marker test compares system and position separately, not lexicographically (`ComponentWiseMarkerTest`).
- The metronome pulse uses the integer quotient `beatsPerMeasure / pulses`. When the quotient is inexact, the pulses do not fill the bar (`PulsesFillBar`, `UnevenPulses`).
- The trill's other pitch is `pitch + (fret - trillFret)`, wrapped to 32 bits.
- Harmonic pitches are narrowed to 8 bits, as `getHarmonicPitch` does (`HarmonicWrapsAround`, `TappedOffsetWraps`).
- The `repeats.empty()` test in `checkForRepeat` can never succeed. The controller's invariant `Valid()` carries that the map always holds the group at (0, 0), so `CheckForRepeat` has no such branch.
- The model takes `symbolLocations.find` to return the first entry inserted with that key, which is the lower bound. The C++ standard promises only some element with an equal key; returning the lower bound is what the common standard libraries do. A `std::multimap` insert lands after the entries with an equal key. The declaration of `symbolLocations` is not part of this model. `FindSymbol`, `DirectionTarget` and `JumpGoesToFirstOccurrence` rest on this reading.

## Model

| member | source | states |
|---|---|---|
| Directions.DecodeEncode | source/powertabdocument/direction.cpp:226-265 | Fields the setter accepts (type below 19, active symbol at most 3, repeat number at most 24) come back unchanged when the packed symbol is read |
| Directions.EncodeDecode | source/powertabdocument/direction.cpp:236-262 | The three bit slots cover all 16 bits, so re-packing the fields read from any stored symbol gives that symbol back |
| Directions.EncodeInjective | source/powertabdocument/direction.cpp:236-238 | Two valid field triples pack to the same 16 bits exactly when they are equal |
| Directions.SymbolAt | source/powertabdocument/direction.cpp:251-265 | Reading a symbol succeeds exactly for an index inside the array, and the fields read pack back to the stored symbol |
| Directions.TextAt | source/powertabdocument/direction.cpp:312-323 | The text is non-empty exactly when the index is valid and the stored type is a valid type; it is then the table entry of that type |
| Directions.DirectionTextShape | source/powertabdocument/direction.cpp:26-40 | The text table has exactly NUM_SYMBOL_TYPES = 19 entries, none of them empty, so "" only ever signals failure |
| Directions.SetThenGet | source/powertabdocument/direction.cpp:226-265 | After a successful set of valid fields at an index, getting that index returns exactly those fields |
| Directions.RemovedSymbolsShift | source/powertabdocument/direction.cpp:290-299 | After removing index i, symbols before i are unchanged and later ones move down by one |
| Directions.Direction.constructor | source/powertabdocument/direction.cpp:44-49 | A default direction is at position 0 with no symbols |
| Directions.Direction.WithSymbol | source/powertabdocument/direction.cpp:59-66 | The primary constructor holds its one symbol when the fields are valid, and no symbol otherwise |
| Directions.Direction.Copy | source/powertabdocument/direction.cpp:69-75 | A copy has the original's position and symbols |
| Directions.Direction.Assign | source/powertabdocument/direction.cpp:86-104 | After assignment the position and symbol array equal the source's, self-assignment included |
| Directions.Direction.Equals | source/powertabdocument/direction.cpp:107-128 | Equal exactly when the counts match, the symbols match element-wise and the positions match, which is equality of the whole value |
| Directions.Direction.NotEquals | source/powertabdocument/direction.cpp:131-136 | The exact negation of equality |
| Directions.Direction.AddSymbol | source/powertabdocument/direction.cpp:199-216 | Succeeds exactly when all three fields are valid and the array does not already hold 3 symbols; on success exactly the packed symbol is appended, otherwise nothing changes; the count never exceeds 3 |
| Directions.Direction.SetSymbol | source/powertabdocument/direction.cpp:226-243 | Succeeds exactly for a valid index and valid fields, then replaces only that index with the packed value; otherwise nothing changes |
| Directions.Direction.GetSymbol | source/powertabdocument/direction.cpp:251-265 | Fails for an invalid index; otherwise the fields read pack back to the stored symbol |
| Directions.Direction.IsSymbolType | source/powertabdocument/direction.cpp:271-285 | True exactly when the index is valid, the queried type is valid and the stored type equals it |
| Directions.Direction.RemoveSymbolAtIndex | source/powertabdocument/direction.cpp:290-299 | Succeeds exactly for a valid index, then removes just that element and keeps the order of the rest; otherwise nothing changes |
| Directions.Direction.GetText | source/powertabdocument/direction.cpp:312-323 | The table text of the stored type, or "" when the index or the stored type is invalid |
| RepeatControl.CountAtOrBefore | source/audio/repeatcontroller.cpp:96 | The upper bound in the ordered group map: every group before it starts at or before the location, every group from it on starts after |
| RepeatControl.PreviousRepeatGroup | source/audio/repeatcontroller.cpp:94-103 | With the (0, 0) group present, the group found has the greatest start at or before the location |
| RepeatControl.AssignGroup | source/audio/repeatcontroller.cpp:44 | `repeats[location] = Repeat(location)` on the sorted sequence keeps it sorted and is map update of that key |
| RepeatControl.EntryUpperBound | source/audio/repeatcontroller.cpp:85-86 | Where a multimap insert lands: after every entry at or before the key, before every later one |
| RepeatControl.EntryLowerBound | source/audio/repeatcontroller.cpp:121 | The first of `equal_range`: every entry before it is strictly before the location, every later one at or after it |
| RepeatControl.LaterDirectionIsConsulted | source/audio/repeatcontroller.cpp:121-126 | A direction at a later location is the one consulted when none is at the current location |
| RepeatControl.InsertDirection | source/audio/repeatcontroller.cpp:85-86 | Inserting an entry keeps the directions sorted by location, adds exactly that entry to the multiset and keeps every entry inside the systems seen so far |
| RepeatControl.InsertAllMultiset | source/audio/repeatcontroller.cpp:85-86 | Inserting a run of entries adds exactly those entries, as a multiset |
| RepeatControl.RemoveEntry | source/audio/repeatcontroller.cpp:133 | Erasing the consulted entry keeps the order and removes exactly one copy of it |
| RepeatControl.FindSymbol | source/audio/repeatcontroller.cpp:210-214 | None exactly when no entry has the type; otherwise the location of the first entry of that type |
| RepeatControl.SymbolOf | source/audio/repeatcontroller.cpp:81-83 | The fields read from symbol i of a direction pack back to the stored symbol |
| RepeatControl.DirectionCopies | source/audio/repeatcontroller.cpp:79-89 | A direction with n symbols gives n directions entries at its location, each a copy of symbol 0 |
| RepeatControl.SymbolCopies | source/audio/repeatcontroller.cpp:79-89 | A direction with n symbols gives n type-to-location entries, each with the type of symbol 0 |
| RepeatControl.SecondSymbolNotIndexed | source/audio/repeatcontroller.cpp:81-83 | For a direction holding Coda then Fine, two Coda entries are indexed and no Fine entry appears |
| RepeatControl.SystemDirectionEntries | source/audio/repeatcontroller.cpp:73-90 | Every entry indexed for a system lies in that system or earlier |
| RepeatControl.SystemEntriesCount | source/audio/repeatcontroller.cpp:73-90 | A system contributes as many directions entries and type-to-location entries as its directions hold symbols |
| RepeatControl.ScoreDirectionEntries | source/audio/repeatcontroller.cpp:28-55 | The entries of the whole score lie within its systems |
| RepeatControl.AddBarline | source/audio/repeatcontroller.cpp:37-51 | A repeat-start bar adds a group at its location, also when it is a repeat end too. A repeat end alone is attached to the group with the greatest start so far. Any other bar changes nothing. The map stays sorted and keeps (0, 0) |
| RepeatControl.AddBarlines | source/audio/repeatcontroller.cpp:35-52 | Scanning a system's bars keeps the map sorted with the (0, 0) group first |
| RepeatControl.AddSystemBarlines | source/audio/repeatcontroller.cpp:28-55 | Scanning every system keeps the map sorted with the (0, 0) group first |
| RepeatControl.AddAlternateEnding | source/audio/repeatcontroller.cpp:60-66 | An alternate ending is added to the group found for its location, and only to it; the set of starts is unchanged |
| RepeatControl.AddAlternateEndings | source/audio/repeatcontroller.cpp:58-67 | Adding every alternate ending keeps the starts and the order |
| RepeatControl.IndexedRepeats | source/audio/repeatcontroller.cpp:22-68 | The indexed map is sorted, non-empty and starts with the (0, 0) group |
| RepeatControl.AddBarlinesStarts | source/audio/repeatcontroller.cpp:35-52 | The starts a system adds are exactly its repeat-start bars |
| RepeatControl.AddSystemBarlinesStarts | source/audio/repeatcontroller.cpp:28-55 | The starts the scan adds are exactly the repeat-start bars of the score |
| RepeatControl.IndexedRepeatsStarts | source/audio/repeatcontroller.cpp:24-55 | The group starts are (0, 0) plus the score's repeat-start bars |
| RepeatControl.NextSymbol | source/audio/repeatcontroller.cpp:167-206 | The D.S. family looks for a Segno, the D.S.S. family for a Segno Segno, To Double Coda for a Double Coda, and every other type for a Coda |
| RepeatControl.DirectionTarget | source/audio/repeatcontroller.cpp:159-221 | Fine goes to the position count of the last system. The D.C. family goes to (0, 0). Any other type goes to an indexed location of the symbol it looks for, or to (0, 0) when that symbol was never indexed |
| RepeatControl.ActiveSymbolAfter | source/audio/repeatcontroller.cpp:169-207 | The D.C., D.S. and D.S.S. families set the active symbol to D.C., D.S. and D.S.S.; all other types leave it unchanged |
| RepeatControl.MissingTargetFallsBack | source/audio/repeatcontroller.cpp:215-220 | A jump whose target symbol was never indexed goes to (0, 0) |
| RepeatControl.JumpGoesToFirstOccurrence | source/audio/repeatcontroller.cpp:209-214 | A jump goes to the location of the first indexed entry of its target symbol |
| RepeatControl.RepeatController.constructor | source/audio/repeatcontroller.cpp:14-19 | A new controller has no active symbol and holds exactly the indexed repeats, directions and symbol locations of the score |
| RepeatControl.RepeatController.IndexRepeats | source/audio/repeatcontroller.cpp:22-68 | The three indexes become the ones the indexing functions describe, and the controller invariant holds |
| RepeatControl.RepeatController.IndexBarlines | source/audio/repeatcontroller.cpp:35-52 | The bar loop of one system updates the group map as AddBarlines describes |
| RepeatControl.RepeatController.IndexAlternateEndings | source/audio/repeatcontroller.cpp:57-67 | The alternate-ending loop updates the group map as AddAlternateEndings describes |
| RepeatControl.RepeatController.IndexDirections | source/audio/repeatcontroller.cpp:71-91 | The directions multimap gains the system's entries, and the symbol index has them appended in order |
| RepeatControl.RepeatController.IndexDirectionSymbols | source/audio/repeatcontroller.cpp:79-89 | The inner loop for one direction inserts its copies of symbol 0 into both indexes |
| RepeatControl.RepeatController.IndexSymbolCopy | source/audio/repeatcontroller.cpp:81-88 | One pass of the inner loop adds the next copy to both indexes |
| RepeatControl.RepeatController.PerformMusicalDirection | source/audio/repeatcontroller.cpp:159-221 | Returns the direction's target and updates the active symbol as the jump families say |
| RepeatControl.RepeatController.PerformDirectionAt | source/audio/repeatcontroller.cpp:120-139 | The lower-bound direction fires when it passes the direction test. Only a firing direction whose target differs from here is erased and resets the active group. Otherwise directions and groups are unchanged |
| RepeatControl.RepeatController.CheckForRepeat | source/audio/repeatcontroller.cpp:108-157 | A moving direction wins. Otherwise the active group's performRepeat decides the new location and group state. The result is true exactly when the location changed, and the invariant is kept |
| Timing.LastApplyingMarker | source/midiplayer.cpp:433-452 | The last marker in list order whose system and position are each at most the current ones and that is not an alteration of pace; None exactly when no marker applies |
| Timing.ComponentWiseMarkerTest | source/midiplayer.cpp:443-444 | A marker at (0, 10) does not apply at (1, 5) although it is earlier in the score |
| Timing.QuarterMillis | source/midiplayer.cpp:471 | The quarter-note length is positive and inversely proportional to bpm and beat type: t * bpm * beatType = 60000 * quarter |
| Timing.HalfSecondQuarter | source/midiplayer.cpp:471 | At 120 bpm in quarter beats a quarter note lasts 500 ms |
| Timing.CurrentTempo | source/midiplayer.cpp:455-472 | The tempo is positive. With no applying marker it comes from the default bpm and beat type, otherwise from the last applying marker |
| Timing.NoteDuration | source/midiplayer.cpp:474-479 | A position's duration is never negative and is positive whenever it has beats |
| Timing.WholeRestDuration | source/midiplayer.cpp:481-501 | A whole rest alone in its bar lasts the bar's length under the preceding time signature, and otherwise keeps its duration |
| Timing.WholeRestExamples | source/midiplayer.cpp:481-501 | At 120 bpm a lone whole rest lasts 2000 ms in 4/4 and 1500 ms in 3/4 |
| Timing.PulsesFillBar | source/midiplayer.cpp:540-542 | The metronome pulses never overrun the bar, and they fill it exactly when the pulse count divides the beats per measure |
| Timing.UnevenPulses | source/midiplayer.cpp:542 | In 7/8 with 3 pulses each pulse is two eighths, so the three pulses fall short of the bar |
| Timing.TruncateToInt | source/midiplayer.cpp:258 | The double-to-int conversion truncates toward zero |
| MetronomeTicks.BarTicks | source/midiplayer.cpp:546-558 | A bar gives two events per pulse |
| MetronomeTicks.BarPulse | source/midiplayer.cpp:540-542 | A bar's pulse length is never negative |
| MetronomeTicks.TickTimeMonotone | source/midiplayer.cpp:554 | The tick cursor only moves forward |
| MetronomeTicks.BarTicksTimes | source/midiplayer.cpp:546-558 | A bar's ticks are in time order and lie between the bar's start and its last pulse's end |
| MetronomeTicks.BarTicksAccents | source/midiplayer.cpp:548-549 | Ticks and stop notes alternate, and only the bar's first tick is strongly accented |
| MetronomeTicks.BarsTicksOrdered | source/midiplayer.cpp:530-559 | All bars give two events per pulse, in time order, and the cursor never moves back |
| MetronomeTicks.MetronomeShape | source/midiplayer.cpp:521-565 | A system's metronome is its bars' ticks, in time order, then one stop note at the end bar at or after the start |
| Pitch.U8 | source/midiplayer.cpp:515-518 | The 8-bit narrowing stays below 256 and is the identity on values that fit |
| Pitch.U32 | source/midiplayer.cpp:572 | The 32-bit wrap stays below 2^32 and is the identity on values that fit |
| Pitch.HarmonicOffset | source/midiplayer.cpp:505-513 | A fret has a non-zero offset exactly when it is one of the ten harmonic frets, and then its offset is the table's |
| Pitch.HarmonicSeries | source/midiplayer.cpp:505-513 | The table is the harmonic series: fret 12 an octave, 7 and 19 an octave and a fifth, 5 and 24 two octaves, 4, 9, 16 and 28 two octaves and a third, 3 two octaves and a fifth |
| Pitch.HarmonicPitch | source/midiplayer.cpp:515-518 | A harmonic pitch is an 8-bit value |
| Pitch.ActualNotePitch | source/midiplayer.cpp:567-595 | Without harmonics the pitch is open string plus capo plus fret, wrapped to 32 bits. A natural harmonic replaces it with the open string's harmonic at that fret. The tapped rule is `TappedHarmonicRule`, the artificial override `ArtificialHarmonicOverrides` |
| Pitch.NaturalHarmonicMatchesFretted | source/midiplayer.cpp:574-577 | The natural harmonic at fret 12 sounds as the fretted 12th fret, and the one at fret 7 an octave above the fretted 7th fret |
| Pitch.TappedHarmonicRule | source/midiplayer.cpp:576-584 | For every note with a tapped harmonic and no artificial one, the pitch is the harmonic of the pitch the other rules give, read at the tapped fret minus the fretted fret, narrowed to 8 bits |
| Pitch.TappedOctave | source/midiplayer.cpp:579-584 | A harmonic tapped 12 frets above the fretted note sounds an octave above it |
| Pitch.ArtificialHarmonicOverrides | source/midiplayer.cpp:586-592 | An artificial harmonic overrides the pitch with (octave of the underlying pitch + octaveDiff + 2) * 12 + key |
| Pitch.HarmonicWrapsAround | source/midiplayer.cpp:515-518 | A harmonic that passes 255 wraps around in 8 bits |
| Pitch.TappedOffsetWraps | source/midiplayer.cpp:583 | A tapped fret below the fretted one wraps the 8-bit fret offset before the table is read |
| Pitch.NoteVelocity | source/midiplayer.cpp:80-96 | The velocity is the highest-priority one that applies: ghost, then muted, then palm muting, then default |
| BendRamps.GradualBendUpTo | source/midiplayer.cpp:671-682 | After k passes the ramp holds k samples |
| BendRamps.GradualBend | source/midiplayer.cpp:665-683 | A ramp from a to b holds exactly abs(a - b) samples, none when a = b |
| BendRamps.GradualBendAt | source/midiplayer.cpp:671-682 | Sample i is the (i+1)-th step toward the target, at start + (i+1) * duration / abs(a - b) |
| BendRamps.GradualBendReachesTarget | source/midiplayer.cpp:665-683 | A ramp between distinct amounts ends with the target amount at start + duration |
| BendRamps.GradualBendSteps | source/midiplayer.cpp:671-682 | Samples step by one toward the target at equal time steps, starting one step from the start amount |
| BendRamps.GradualBendBounds | source/midiplayer.cpp:671-682 | Every sample lies strictly past the start amount and no further than the target, within the ramp's time span |
| BendRamps.BendEndsAtCarriedAmount | source/midiplayer.cpp:598-661 | A note's bend ends at the amount it leaves in activePitchBend, when it has samples |
| BendRamps.ResetClosesNote | source/midiplayer.cpp:647-651 | Pre-bend, immediate release and normal bend end with the release amount at the note's end |
| BendRamps.LongBendAddsNoRamp | source/midiplayer.cpp:613-625 | A normal bend with a bend duration other than 0 or 1 is only the reset sample; a bend-and-hold of that kind adds nothing |
| BendRamps.ReleaseAfterHold | source/midiplayer.cpp:642-660 | A gradual release after a hold ramps from the held bent amount to the release amount |
| BendRamps.SlideOutShape | source/midiplayer.cpp:711-747 | A slide out of the note ramps in the second half of the note and then resets to the default bend at the note's end |
| BendRamps.UnsupportedSlideIntoIsSilent | source/midiplayer.cpp:749-774 | An unsupported slide-into type keeps the default amount and adds no samples |
| BendRamps.SlideIntoReturnsToDefault | source/midiplayer.cpp:749-774 | A slide into the note ends at the default bend a 16th note after the note's start |
| EventGeneration.PlayedNotesFit | source/midiplayer.cpp:150-159 | Sorting an arpeggio's notes keeps every note on a string of the guitar |
| EventGeneration.TremoloCount | source/midiplayer.cpp:257-258 | The number of 32nd notes is the greatest whole number of them that fits in the duration, and 0 for a negative duration |
| EventGeneration.TremoloEvents | source/midiplayer.cpp:269-282 | n passes give 2n events |
| EventGeneration.TremoloAt | source/midiplayer.cpp:269-282 | Events 2k and 2k + 1 are the stop and the play of pass k |
| EventGeneration.TremoloFits | source/midiplayer.cpp:269-282 | Each pass stops the sounding pitch and plays the other at the same time, inside the note; the pitches alternate |
| EventGeneration.TremoloWithinNote | source/midiplayer.cpp:253-283 | With the count the note loop computes, every 32nd note of the tremolo lies within the note's duration |
| EventGeneration.BendEvents | source/midiplayer.cpp:246-250 | One bend event per sample |
| EventGeneration.BendEventsAt | source/midiplayer.cpp:246-250 | Bend event i carries sample i's time and amount |
| EventGeneration.BendEventsKinds | source/midiplayer.cpp:246-250 | Bend events neither play, stop nor switch let ring |
| EventGeneration.TremoloNoLetRing | source/midiplayer.cpp:269-282 | A tremolo emits no let-ring events |
| EventGeneration.NoteEventsNoLetRing | source/midiplayer.cpp:206-311 | A note's events hold no let-ring events |
| EventGeneration.PlayerEmitsNoLetRing | source/midiplayer.cpp:196-312 | The note loop never switches let ring |
| EventGeneration.UntiedNoteIsPlayed | source/midiplayer.cpp:212-218 | An untied note first plays its own pitch at its start, with its velocity |
| EventGeneration.TiedNoteIsNotReplayed | source/midiplayer.cpp:212-230 | A tied note outside a tremolo is not played again, and it is not stopped either when tie-wrapped or tied into |
| EventGeneration.TiedNoteStopsPreviousPitch | source/midiplayer.cpp:219-230 | A tied note stops the pitch of the note it is tied from |
| EventGeneration.NoteStopRule | source/midiplayer.cpp:285-311 | A note not tie-wrapped or tied into ends with a stop of the pitch last sounding, after the note length (halved for staccato, /1.15 under palm muting). Otherwise it gets no stop |
| EventGeneration.NotesKeepEnd | source/midiplayer.cpp:196-204 | The arpeggio shift keeps the notes' end time: each note starts one offset later and lasts one offset less; the event list only grows |
| EventGeneration.PositionDuration | source/midiplayer.cpp:127-135 | A position's duration is never negative |
| EventGeneration.PositionAdvance | source/midiplayer.cpp:125-317 | A rest moves the cursor by its duration and emits nothing. A grace note leaves the cursor where it was, arpeggio or not. Any other position moves it by exactly its duration. The end time is the latest cursor |
| EventGeneration.PassAdvances | source/midiplayer.cpp:121-317 | Every pass of the position loop keeps the progress of the cursor, end time and events |
| EventGeneration.VoiceProgress | source/midiplayer.cpp:114-317 | Over a voice the cursor and end time never move back, the end time is at least the cursor, and the event list only grows |
| EventGeneration.VoicesProgress | source/midiplayer.cpp:112-318 | Over a staff's voices the end time never moves back and events are only appended |
| EventGeneration.StavesProgress | source/midiplayer.cpp:107-319 | Over the staves the end time never moves back and events are only appended |
| EventGeneration.SystemEndsAfterStart | source/midiplayer.cpp:100-322 | The end time of a system is at least its start time, and the event list only grows |
| EventGeneration.LetRingSwitches | source/midiplayer.cpp:176-194 | At a sounding position let ring is switched on, switched off or closed at the last position, and the switch events match the change of state |
| EventGeneration.SwitchesAlternate | source/midiplayer.cpp:176-194 | From off, the switches alternate on, off, on, and the state is on exactly after an odd number of them |
| EventGeneration.PositionSwitch | source/midiplayer.cpp:129-194 | A position emits exactly the let-ring switches of its change of state, and a rest switches nothing |
| EventGeneration.VoiceLetRing | source/midiplayer.cpp:114-194 | Within a voice, starting off, let-ring events alternate on and off starting with on, and let ring is active exactly after an odd number of them |
| EventGeneration.LetRingAtLastPosition | source/midiplayer.cpp:129-194 | After a voice, let ring is on only if the last position is a rest that leaves it on, or switches it on |
| Player.ContextFits | source/midiplayer.cpp:109-110 | Every note of every position of a voice lies on its staff's guitar |
| Player.SystemPassExtends | source/midiplayer.cpp:67-72 | Each system pass of run only appends to the event list and never moves the time stamp back |
| Player.ScoreEventsGrow | source/midiplayer.cpp:63-72 | The time stamp the generation loop of run hands to the next system is never negative |
| Player.MidiPlayer.constructor | source/midiplayer.cpp:34-42 | The player starts at system 0 with the pitch wheel at the default bend |
| Player.MidiPlayer.GetCurrentTempoMarker | source/midiplayer.cpp:433-452 | The scan finds the last applying marker as LastApplyingMarker specifies |
| Player.MidiPlayer.GetCurrentTempo | source/midiplayer.cpp:455-472 | The tempo it computes is CurrentTempo |
| Player.MidiPlayer.CalculateNoteDuration | source/midiplayer.cpp:474-479 | The duration it computes is NoteDuration |
| Player.MidiPlayer.GetWholeRestDuration | source/midiplayer.cpp:481-501 | The duration it computes is WholeRestDuration at the current tempo |
| Player.MidiPlayer.GenerateGradualBend | source/midiplayer.cpp:665-683 | The loop appends exactly the ramp GradualBend describes |
| Player.MidiPlayer.GenerateBends | source/midiplayer.cpp:598-661 | Appends the bend's samples from the carried pitch wheel. Afterwards activePitchBend is the bent amount for the hold types and the release amount for the rest |
| Player.MidiPlayer.GenerateSlides | source/midiplayer.cpp:700-775 | Appends the slide-out samples, then the slide-into samples |
| Player.MidiPlayer.GenerateBarTicks | source/midiplayer.cpp:546-558 | The pulse loop appends the bar's ticks and leaves the cursor after its last pulse |
| Player.MidiPlayer.GenerateMetronome | source/midiplayer.cpp:521-565 | Appends the ticks of every bar but the end bar, then the end-bar stop note |
| Player.MidiPlayer.GenerateTremolo | source/midiplayer.cpp:269-282 | Appends the tremolo passes, none for a negative count, and returns the pitch sounding afterwards |
| Player.MidiPlayer.AppendBendEvents | source/midiplayer.cpp:246-250 | Appends one bend event per sample |
| Player.MidiPlayer.GenerateNoteTremolo | source/midiplayer.cpp:253-283 | Appends the note's tremolo or trill, alternating with `pitch + (fret - trillFret)` for a trill, and returns the last pitch |
| Player.MidiPlayer.GenerateNoteStop | source/midiplayer.cpp:285-311 | Appends the stop the note's tie state and articulation call for |
| Player.MidiPlayer.GenerateNote | source/midiplayer.cpp:206-311 | Appends exactly the note's events and carries the pitch wheel its bend leaves |
| Player.MidiPlayer.GenerateNotePass | source/midiplayer.cpp:196-311 | One pass of the note loop, arpeggio shift included, moves the state one note further |
| Player.MidiPlayer.GenerateNotes | source/midiplayer.cpp:196-312 | The note loop produces the state NotesUpTo describes |
| Player.MidiPlayer.GenerateMarks | source/midiplayer.cpp:161-194 | Appends the vibrato pair and the let-ring switch and returns the new let-ring state |
| Player.MidiPlayer.GeneratePosition | source/midiplayer.cpp:123-316 | One position of a voice moves the voice state as PositionStep describes |
| Player.MidiPlayer.GenerateVoice | source/midiplayer.cpp:114-317 | The position loop yields the end time, pitch wheel and events of VoiceUpTo |
| Player.MidiPlayer.GenerateStaff | source/midiplayer.cpp:112-318 | The voice loop of a staff yields VoicesUpTo |
| Player.MidiPlayer.GenerateStaffPass | source/midiplayer.cpp:107-319 | One staff pass moves the system state one staff further |
| Player.MidiPlayer.GenerateEventsForSystem | source/midiplayer.cpp:100-322 | The staff loop yields exactly SystemEvents, the latest end time included |
| Player.MidiPlayer.GenerateSystemPass | source/midiplayer.cpp:67-72 | One system pass appends its metronome, then its events, from the previous system's end |
| Player.MidiPlayer.GenerateScoreEvents | source/midiplayer.cpp:63-72 | Walks every system and yields the events ScoreEventsUpTo describes |

## Left out

- Threading and device output are not modelled: `run`'s locking, the destructor, `changePlaybackSpeed`, RtMidi set-up, `QSettings`, `usleep`, signals and logging. Only the generation loop of `run` is modelled (`GenerateScoreEvents`).
- `playMidiEvents`, the playback cursor over the sorted events, is not modelled. It is mostly timing and device output; the repeat decisions it relies on are `CheckForRepeat`.
- `eventList.sort()` is not modelled. `MidiEvent::operator<` is not part of this model, so the event list is the one generation produces, in generation order.
- `Direction::Serialize` and `Deserialize` are not modelled. The stream classes and their byte widths are not part of this model.
- source/score/position.h holds declarations only; positions are the `Position` datatype.
- Timestamps and durations are exact reals, not IEEE doubles. The `/ 1.15` palm-mute factor is exact division.
- Bend and slide amounts are the floor of an exact real, kept as `int`. The narrowing to `uint8_t` is not modelled. With the default range it does not matter; a negative slide-out step count below the range would wrap in the code.
- The narrowing of pulses, beats per measure and beat amount to `quint8` in `generateMetronome` is not modelled. `beatsPerMeasure` is a natural; `beatAmount` and `pulses` are positive naturals.
- `TimeSignature.beatAmount`, `TimeSignature.pulses` and `TempoMarker.beatType` are assumed non-zero (type `Positive`), because the `TimeSignature` and `TempoMarker` validity rules are not part of this model. The code guards none of them. At 0, `generateMetronome` divides the double tempo by `beatValue`, giving an infinite pulse length, and then does an integer division by `numPulses`, which is undefined. `getWholeRestDuration` divides by the beat amount, giving an infinite rest. `getCurrentTempo` divides by `beatType`, giving an infinite note length. The beat-type values are declared in `TempoMarker`'s header, which is not part of this model, so whether 0 is a legal beat type is not known here.
- The header constants (`DEFAULT_BEND`, `BEND_QUARTER_TONE`, `GRACE_NOTE_DURATION`, `ARPEGGIO_OFFSET`, the metronome channel and pitch, the tempo defaults, `TempoMarker::quarter`) are not part of this model. They are the parameters in `PlayerConstants`.
- Collaborators are functions in `ScoreQueries`:
  - `GetAdjacentNoteOnString`, `IsOnlyPositionInBar`, `GetPrecedingBarline`, `SortNotesUp/Down` and `midi::GetMidiNoteOctave` in the player;
  - `Repeat` and `DirectionSymbol::shouldPerformDirection` in the controller, through `RepeatBehaviour`.

  `Position::GetDuration` is the `beats` field of a position.
- Player.MidiPlayer.GeneratePosition: the notes sorted for an arpeggio are used for the note loop but not written back into the score's position, because the score is a read-only value here.
- The guitar pointer carried by `PlayNoteEvent` is not part of `MidiEvent`.
- `Q_ASSERT(bpm != 0)` is enforced by the type of `TempoMarker.beatsPerMinute`, a positive natural.
- Player.MidiPlayer.GenerateEventsForSystem and the methods under it require a playable score: a guitar for every staff, two voices per staff and every note on a string of the tuning. The code reads out of range otherwise.
- The same methods also require `QueriesConsistent`: adjacent notes lie on the same string, and sorting only reorders.
- Player.MidiPlayer.GenerateMetronome and GenerateScoreEvents require every system to have barlines. `pop_back` on an empty list is undefined, and a system always lists its start and end bars.
- RepeatControl.RepeatController.PerformMusicalDirection requires a non-empty score for Fine. The code would index system -1 otherwise.
- Player.MidiPlayer.GenerateGradualBend: the step is taken as 0 when the two amounts are equal. The code divides by zero there, but its loop then runs no pass, so nothing observable changes.
