/** The metronome ticks generated for a system. */
module MetronomeTicks {
  import opened Directions
  import opened Score
  import opened MidiEvents
  import opened Timing

  /** The time of the given number of pulses after the start. */
  function TickTime(start: real, pulse: real, k: nat): real {
    start + (k as real) * pulse
  }

  lemma TickTimeMonotone(start: real, pulse: real, k1: nat, k2: nat)
    requires pulse >= 0.0 && k1 <= k2
    ensures start <= TickTime(start, pulse, k1) <= TickTime(start, pulse, k2)
  {
    assert ((k2 - k1) as real) * pulse >= 0.0;
    assert (k2 as real) * pulse == (k1 as real) * pulse + ((k2 - k1) as real) * pulse;
  }

  /** The events of one bar: for each pulse a metronome tick and, one pulse later, its
      stop note; only the first tick is accented. */
  function BarTicks(c: PlayerConstants, systemIndex: nat, start: real, pulse: real, bar: Barline): (r: seq<MidiEvent>)
    ensures |r| == 2 * bar.timeSignature.pulses
  {
    seq(2 * bar.timeSignature.pulses, i requires 0 <= i < 2 * bar.timeSignature.pulses =>
      if i % 2 == 0 then
        MidiEvent(c.metronomeChannel, TickTime(start, pulse, i / 2), bar.position, systemIndex,
                  Metronome(pulse, i == 0))
      else
        MidiEvent(c.metronomeChannel, TickTime(start, pulse, i / 2 + 1), bar.position, systemIndex,
                  StopNote(c.metronomePitch)))
  }

  datatype Ticks = Ticks(events: seq<MidiEvent>, endTime: real)

  /** The pulse length at a barline: the tempo is looked up at the barline's position. */
  function BarPulse(c: PlayerConstants, markers: seq<TempoMarker>, currentSystemIndex: nat, bar: Barline): (p: real)
    ensures p >= 0.0
  {
    PulseDuration(CurrentTempo(c, markers, currentSystemIndex, bar.position), bar.timeSignature)
  }

  /** The ticks of the given bars, one bar after the other from `start`. */
  function BarsTicks(c: PlayerConstants, markers: seq<TempoMarker>, currentSystemIndex: nat, systemIndex: nat,
                     start: real, bars: seq<Barline>): Ticks
  {
    if bars == [] then Ticks([], start)
    else
      var before := BarsTicks(c, markers, currentSystemIndex, systemIndex, start, bars[..|bars| - 1]);
      var bar := bars[|bars| - 1];
      var pulse := BarPulse(c, markers, currentSystemIndex, bar);
      Ticks(before.events + BarTicks(c, systemIndex, before.endTime, pulse, bar),
            TickTime(before.endTime, pulse, bar.timeSignature.pulses))
  }

  /** generateMetronome: the ticks of every bar but the end bar, then a stop note at the
      end bar's position that lets the repeat logic see the end of the system. */
  function MetronomeEvents(c: PlayerConstants, markers: seq<TempoMarker>, currentSystemIndex: nat, systemIndex: nat,
                           start: real, system: System): seq<MidiEvent>
    requires |system.barlines| > 0
  {
    var bars := system.barlines[..|system.barlines| - 1];
    var ticks := BarsTicks(c, markers, currentSystemIndex, systemIndex, start, bars);
    ticks.events + [MidiEvent(c.metronomeChannel, ticks.endTime, system.barlines[|system.barlines| - 1].position,
                              systemIndex, StopNote(c.metronomePitch))]
  }

  /** Total pulses of the bars. */
  function PulseTotal(bars: seq<Barline>): nat {
    if bars == [] then 0 else PulseTotal(bars[..|bars| - 1]) + bars[|bars| - 1].timeSignature.pulses
  }

  predicate TimesOrdered(es: seq<MidiEvent>) {
    forall i, j :: 0 <= i < j < |es| ==> es[i].startTime <= es[j].startTime
  }

  predicate TimesWithin(es: seq<MidiEvent>, lo: real, hi: real) {
    forall i :: 0 <= i < |es| ==> lo <= es[i].startTime <= hi
  }

  /** The ticks of a bar are in time order and span exactly its pulses. */
  lemma BarTicksTimes(c: PlayerConstants, systemIndex: nat, start: real, pulse: real, bar: Barline)
    requires pulse >= 0.0
    ensures var r := BarTicks(c, systemIndex, start, pulse, bar);
            TimesOrdered(r) && TimesWithin(r, start, TickTime(start, pulse, bar.timeSignature.pulses))
  {
    var r := BarTicks(c, systemIndex, start, pulse, bar);
    var n := bar.timeSignature.pulses;
    assert forall i :: 0 <= i < |r| ==> r[i].startTime == TickTime(start, pulse, (i + 1) / 2);
    forall i, j | 0 <= i < j < |r| ensures r[i].startTime <= r[j].startTime {
      TickTimeMonotone(start, pulse, (i + 1) / 2, (j + 1) / 2);
    }
    forall i | 0 <= i < |r| ensures start <= r[i].startTime <= TickTime(start, pulse, n) {
      TickTimeMonotone(start, pulse, (i + 1) / 2, n);
    }
  }

  /** Ticks and stop notes alternate, and only the first tick of a bar is accented. */
  lemma BarTicksAccents(c: PlayerConstants, systemIndex: nat, start: real, pulse: real, bar: Barline)
    ensures var r := BarTicks(c, systemIndex, start, pulse, bar);
            && (forall i :: 0 <= i < |r| ==> (r[i].kind.Metronome? <==> i % 2 == 0))
            && (forall i :: 0 <= i < |r| && r[i].kind.Metronome? ==> (r[i].kind.strongAccent <==> i == 0))
  {
  }

  /** The bars' ticks are in time order and end after all their pulses. */
  lemma {:induction false} BarsTicksOrdered(c: PlayerConstants, markers: seq<TempoMarker>, currentSystemIndex: nat,
                                            systemIndex: nat, start: real, bars: seq<Barline>)
    ensures var t := BarsTicks(c, markers, currentSystemIndex, systemIndex, start, bars);
            |t.events| == 2 * PulseTotal(bars) && TimesOrdered(t.events) && TimesWithin(t.events, start, t.endTime)
            && start <= t.endTime
  {
    if bars != [] {
      var pre := bars[..|bars| - 1];
      var bar := bars[|bars| - 1];
      BarsTicksOrdered(c, markers, currentSystemIndex, systemIndex, start, pre);
      var before := BarsTicks(c, markers, currentSystemIndex, systemIndex, start, pre);
      var pulse := BarPulse(c, markers, currentSystemIndex, bar);
      BarTicksTimes(c, systemIndex, before.endTime, pulse, bar);
      TickTimeMonotone(before.endTime, pulse, 0, bar.timeSignature.pulses);
      ConcatInOrder(before.events, BarTicks(c, systemIndex, before.endTime, pulse, bar), start, before.endTime,
                    TickTime(before.endTime, pulse, bar.timeSignature.pulses));
    }
  }

  /** Two runs of events in time order, the second starting where the first may end,
      form one run in time order. */
  lemma ConcatInOrder(a: seq<MidiEvent>, b: seq<MidiEvent>, lo: real, mid: real, hi: real)
    requires TimesOrdered(a) && TimesWithin(a, lo, mid)
    requires TimesOrdered(b) && TimesWithin(b, mid, hi)
    requires lo <= mid <= hi
    ensures TimesOrdered(a + b) && TimesWithin(a + b, lo, hi)
  {
    var all := a + b;
    forall i, j | 0 <= i < j < |all| ensures all[i].startTime <= all[j].startTime {
      if j < |a| {
        assert all[i] == a[i] && all[j] == a[j];
      } else if i >= |a| {
        assert all[i] == b[i - |a|] && all[j] == b[j - |a|];
      } else {
        assert all[i] == a[i] && all[j] == b[j - |a|];
      }
    }
    forall i | 0 <= i < |all| ensures lo <= all[i].startTime <= hi {
      if i < |a| {
        assert all[i] == a[i];
      } else {
        assert all[i] == b[i - |a|];
      }
    }
  }

  /** generateMetronome emits two events per pulse plus the end-of-system marker, all in
      time order, the marker last. */
  lemma MetronomeShape(c: PlayerConstants, markers: seq<TempoMarker>, currentSystemIndex: nat, systemIndex: nat,
                       start: real, system: System)
    requires |system.barlines| > 0
    ensures var r := MetronomeEvents(c, markers, currentSystemIndex, systemIndex, start, system);
            && |r| == 2 * PulseTotal(system.barlines[..|system.barlines| - 1]) + 1
            && TimesOrdered(r)
            && r[|r| - 1].position == system.barlines[|system.barlines| - 1].position
            && r[|r| - 1].kind == StopNote(c.metronomePitch)
            && start <= r[|r| - 1].startTime
  {
    var bars := system.barlines[..|system.barlines| - 1];
    BarsTicksOrdered(c, markers, currentSystemIndex, systemIndex, start, bars);
    var ticks := BarsTicks(c, markers, currentSystemIndex, systemIndex, start, bars);
    var r := MetronomeEvents(c, markers, currentSystemIndex, systemIndex, start, system);
    forall i, j | 0 <= i < j < |r| ensures r[i].startTime <= r[j].startTime {
      if j < |ticks.events| {
        assert r[i] == ticks.events[i] && r[j] == ticks.events[j];
      } else {
        assert r[i] == ticks.events[i];
      }
    }
  }
}
