/**
 * Programming the waveform sequencer: the single-slot write, the eight slot
 * writes of a whole sequence in index order, and what a failed slot write
 * leaves behind.
 */
module SequencerProofs {
  import opened Wrappers
  import opened Primitives
  import opened Waveform
  import opened Effects
  import opened Registers
  import opened Bus
  import opened DriverSpec
  import opened Traffic

  /** The slot writes for `slots[from..]`, one per slot, in ascending slot order. */
  function SlotWrites(slots: seq<WaveformEntry>, from: nat): (plan: seq<Access>)
    requires |slots| <= SlotCount && from <= |slots|
    ensures |plan| == |slots| - from
    ensures forall j | 0 <= j < |plan| :: plan[j] == Write(SlotVal(from + j, slots[from + j]))
  {
    seq(|slots| - from, j requires 0 <= j < |slots| - from => Write(SlotVal(from + j, slots[from + j])))
  }

  /** The sequencer with slots `lo` .. `hi - 1` taken from `update` and the others from `prev`. */
  function Overlay(prev: Sequencer, update: Sequencer, lo: nat, hi: nat): (r: Sequencer)
    ensures forall j | 0 <= j < SlotCount :: r[j] == if lo <= j < hi then update[j] else prev[j]
  {
    seq(SlotCount, j requires 0 <= j < SlotCount => if lo <= j < hi then update[j] else prev[j])
  }

  /**
   * `set_waveform_entry`: an index above 7 is rejected with no bus traffic and
   * nothing changed; otherwise one write of slot `index`, which on success
   * changes that slot and nothing else, and on failure changes no register.
   * The cached mode is never touched.
   */
  lemma SetWaveformEntryOutcome(s: DriverState, f: Faults, index: Byte, entry: WaveformEntry)
    ensures var r := SetWaveformEntry(s, f, index, entry);
      && (index > 7 ==> r == Run(s, Err(InvalidWaveform)))
      && (index <= 7 ==>
            && FollowsPlan(s, f, [Write(SlotVal(index, entry))], r)
            && r.state.currentMode == s.currentMode
            && (r.result.Ok? ==> r.state.bus.regs == s.bus.regs.(slots := s.bus.regs.slots[index := entry]))
            && (r.result.Err? ==> r.state.bus.regs == s.bus.regs))
  {
    if index <= 7 {
      WriteFollowsPlan(s, f, SlotVal(index, entry));
    }
  }

  /** The plan from slot `i` is the write of slot `i` followed by the plan from slot `i + 1`. */
  lemma SlotWritesStep(slots: Sequencer, i: nat)
    requires i < SlotCount
    ensures SlotWrites(slots, i) == [Write(SlotVal(i, slots[i]))] + SlotWrites(slots, i + 1)
  {
    var tail := SlotWrites(slots, i + 1);
    assert forall j | 0 <= j < |tail| :: tail[j] == Write(SlotVal(i + 1 + j, slots[i + 1 + j]));
  }

  /** Writing slot `i` and then overlaying from `i + 1` is overlaying from `i`. */
  lemma OverlayStep(prev: Sequencer, slots: Sequencer, i: nat, hi: nat)
    requires i < hi && i < SlotCount
    ensures Overlay(prev[i := slots[i]], slots, i + 1, hi) == Overlay(prev, slots, i, hi)
  {
    var a := Overlay(prev[i := slots[i]], slots, i + 1, hi);
    var b := Overlay(prev, slots, i, hi);
    assert forall j | 0 <= j < SlotCount :: a[j] == b[j];
  }

  /** An empty overlay changes nothing. */
  lemma OverlayEmpty(prev: Sequencer, slots: Sequencer, i: nat)
    ensures Overlay(prev, slots, i, i) == prev
  {
    var a := Overlay(prev, slots, i, i);
    assert forall j | 0 <= j < SlotCount :: a[j] == prev[j];
  }

  /** Overlaying every slot gives the new sequencer. */
  lemma OverlayFull(prev: Sequencer, slots: Sequencer)
    ensures Overlay(prev, slots, 0, SlotCount) == slots
  {
    var a := Overlay(prev, slots, 0, SlotCount);
    assert forall j | 0 <= j < SlotCount :: a[j] == slots[j];
  }

  /** The slot-writing loop from slot `i` on issues the remaining slot writes in order, stopping at the first failure. */
  lemma {:induction false} WriteSlotsTraffic(s: DriverState, f: Faults, slots: Sequencer, i: nat)
    requires i <= SlotCount
    ensures FollowsPlan(s, f, SlotWrites(slots, i), WriteSlots(s, f, slots, i))
    decreases SlotCount - i
  {
    var r := WriteSlots(s, f, slots, i);
    if i < SlotCount {
      var w := SetWaveformEntry(s, f, i, slots[i]);
      WriteFollowsPlan(s, f, SlotVal(i, slots[i]));
      if w.result.Ok? {
        WriteSlotsTraffic(w.state, f, slots, i + 1);
      }
      SlotWritesStep(slots, i);
      Compose(s, f, [Write(SlotVal(i, slots[i]))], w, SlotWrites(slots, i + 1), r, r);
    }
  }

  /**
   * The state the slot-writing loop from slot `i` leaves: the slots it wrote
   * before the first failure hold their new values, every other register and
   * the cached mode are unchanged.
   */
  lemma {:induction false} WriteSlotsState(s: DriverState, f: Faults, slots: Sequencer, i: nat)
    requires i <= SlotCount
    ensures SlotsWrittenFrom(s, f, slots, i)
    decreases SlotCount - i
  {
    var n := |s.bus.trace|;
    if i == SlotCount {
      OverlayEmpty(s.bus.regs.slots, slots, i);
    } else if n in f {
      var w := SetWaveformEntry(s, f, i, slots[i]);
      assert w.result.Err? && w.state.bus.regs == s.bus.regs;
      assert WriteSlots(s, f, slots, i) == w;
      assert FirstFault(f, n, SlotCount - i) == 0;
      OverlayEmpty(s.bus.regs.slots, slots, i);
    } else {
      var w := SetWaveformEntry(s, f, i, slots[i]);
      WriteSlotsState(w.state, f, slots, i + 1);
      WriteSlotsStateStep(s, f, slots, i);
    }
  }

  /** The state the slot-writing loop from slot `i` leaves, as `WriteSlotsState` states it. */
  ghost predicate SlotsWrittenFrom(s: DriverState, f: Faults, slots: Sequencer, i: nat)
    requires i <= SlotCount
  {
    var r := WriteSlots(s, f, slots, i);
    var k := FirstFault(f, |s.bus.trace|, SlotCount - i);
    && r.state.currentMode == s.currentMode
    && r.state.bus.regs == s.bus.regs.(slots := Overlay(s.bus.regs.slots, slots, i, i + k))
  }

  /** One successful slot write followed by the rest of the loop. */
  lemma WriteSlotsStateStep(s: DriverState, f: Faults, slots: Sequencer, i: nat)
    requires i < SlotCount && |s.bus.trace| !in f
    requires SlotsWrittenFrom(SetWaveformEntry(s, f, i, slots[i]).state, f, slots, i + 1)
    ensures SlotsWrittenFrom(s, f, slots, i)
  {
    var n := |s.bus.trace|;
    var w := SetWaveformEntry(s, f, i, slots[i]);
    var d := s.bus.regs;
    assert w.state.bus.regs == d.(slots := d.slots[i := slots[i]]);
    assert |w.state.bus.trace| == n + 1;
    var r := WriteSlots(w.state, f, slots, i + 1);
    assert WriteSlots(s, f, slots, i) == r;
    var k := FirstFault(f, n + 1, SlotCount - i - 1);
    assert FirstFault(f, n, SlotCount - i) == 1 + k;
    OverlayAfterWrite(d, w.state.bus.regs, r.state.bus.regs, slots, i, i + 1 + k);
  }

  /** Writing slot `i` of a register file and then overlaying from `i + 1` is overlaying from `i`. */
  lemma OverlayAfterWrite(d: DeviceRegs, written: DeviceRegs, overlaid: DeviceRegs, slots: Sequencer, i: nat, hi: nat)
    requires i < hi && i < SlotCount
    requires written == d.(slots := d.slots[i := slots[i]])
    requires overlaid == written.(slots := Overlay(written.slots, slots, i + 1, hi))
    ensures overlaid == d.(slots := Overlay(d.slots, slots, i, hi))
  {
    OverlayStep(d.slots, slots, i, hi);
  }

  /**
   * `set_waveform_sequence`: more than eight entries are rejected with no bus
   * traffic and nothing changed. Otherwise the driver issues the eight slot
   * writes of the padded sequence in ascending slot order and stops at the
   * first that fails. On success the sequencer holds the entries followed by
   * stop terminators; on a failure at write `k` the error is that write's,
   * slots below `k` hold their new values, the others and every other
   * register are unchanged, and the trace gained exactly `k + 1` writes.
   */
  lemma SetWaveformSequenceOutcome(s: DriverState, f: Faults, entries: seq<WaveformEntry>)
    ensures var r := SetWaveformSequence(s, f, entries);
      && (|entries| > SlotCount ==> r == Run(s, Err(InvalidWaveform)))
      && (|entries| <= SlotCount ==>
            var padded := Padded(entries);
            var plan := SlotWrites(padded, 0);
            var n := |s.bus.trace|;
            var k := FirstFault(f, n, SlotCount);
            && |plan| == SlotCount
            && FollowsPlan(s, f, plan, r)
            && r.state.currentMode == s.currentMode
            && (k == SlotCount ==>
                  && r.result == Ok(())
                  && r.state.bus.trace == s.bus.trace + plan
                  && r.state.bus.regs == s.bus.regs.(slots := padded))
            && (k < SlotCount ==>
                  && r.result == Err(I2c(f[n + k]))
                  && r.state.bus.trace == s.bus.trace + plan[..k + 1]
                  && r.state.bus.regs == s.bus.regs.(slots := Overlay(s.bus.regs.slots, padded, 0, k))))
  {
    if |entries| <= SlotCount {
      var padded := Padded(entries);
      WriteSlotsTraffic(s, f, padded, 0);
      WriteSlotsState(s, f, padded, 0);
      assert SlotsWrittenFrom(s, f, padded, 0);
      SlotWritesOutcome(s, f, padded, SetWaveformSequence(s, f, entries));
    }
  }

  /** A run that followed the eight slot writes of `slots` and left the state the slot loop leaves. */
  lemma SlotWritesOutcome(s: DriverState, f: Faults, slots: Sequencer, r: Run<()>)
    requires FollowsPlan(s, f, SlotWrites(slots, 0), r)
    requires r.state.bus.regs
      == s.bus.regs.(slots := Overlay(s.bus.regs.slots, slots, 0, FirstFault(f, |s.bus.trace|, SlotCount)))
    ensures var plan := SlotWrites(slots, 0);
      var n := |s.bus.trace|;
      var k := FirstFault(f, n, SlotCount);
      && (k == SlotCount ==>
            && r.result == Ok(())
            && r.state.bus.trace == s.bus.trace + plan
            && r.state.bus.regs == s.bus.regs.(slots := slots))
      && (k < SlotCount ==>
            && r.result == Err(I2c(f[n + k]))
            && r.state.bus.trace == s.bus.trace + plan[..k + 1])
  {
    var plan := SlotWrites(slots, 0);
    assert |plan| == SlotCount;
    FollowsPlanByFirstFault(s, f, plan, r);
    OverlayFull(s.bus.regs.slots, slots);
    if r.result.Ok? {
      assert r.result.value == ();
    }
  }

  /** The eight slot writes that program one effect followed by stops. */
  function SingleEffectPlan(e: WaveformEntry): (plan: seq<Access>)
    ensures |plan| == SlotCount
    ensures plan[0] == Write(SlotVal(0, e))
    ensures forall j | 1 <= j < SlotCount :: plan[j] == Write(SlotVal(j, StopEntry()))
  {
    SlotWrites(Padded([e, StopEntry()]), 0)
  }

  /**
   * `set_single_effect`: the eight slot writes of effect `id` followed by
   * stops, in slot order, stopping at the first failure; on success the
   * sequencer holds exactly that, and the cache and other registers never
   * change.
   */
  lemma SetSingleEffectOutcome(s: DriverState, f: Faults, effectId: Byte)
    ensures var r := SetSingleEffect(s, f, effectId);
      && FollowsPlan(s, f, SingleEffectPlan(EffectEntry(effectId)), r)
      && r.state.currentMode == s.currentMode
      && (r.result.Ok? ==> r.state.bus.regs == s.bus.regs.(slots := Padded([EffectEntry(effectId), StopEntry()])))
  {
    var padded := Padded([EffectEntry(effectId), StopEntry()]);
    WriteSlotsTraffic(s, f, padded, 0);
    SetSingleEffectState(s, f, effectId);
  }

  /**
   * The state `set_single_effect` leaves, without its traffic: the slots
   * written before the first failed write hold the new sequence and the
   * rest keep their old contents.
   */
  lemma SetSingleEffectState(s: DriverState, f: Faults, effectId: Byte)
    ensures var r := SetSingleEffect(s, f, effectId);
      && r.state.currentMode == s.currentMode
      && r.state.bus.regs == s.bus.regs.(slots := Overlay(s.bus.regs.slots, Padded([EffectEntry(effectId), StopEntry()]),
                                                          0, FirstFault(f, |s.bus.trace|, SlotCount)))
      && (r.result.Ok? ==> r.state.bus.regs == s.bus.regs.(slots := Padded([EffectEntry(effectId), StopEntry()])))
  {
    var padded := Padded([EffectEntry(effectId), StopEntry()]);
    WriteSlotsTraffic(s, f, padded, 0);
    WriteSlotsState(s, f, padded, 0);
    assert SlotsWrittenFrom(s, f, padded, 0);
    SlotWritesOutcome(s, f, padded, SetSingleEffect(s, f, effectId));
  }

  /**
   * `set_single_effect`: on success slot 0 holds the effect entry for `id`
   * and slots 1 to 7 hold the stop terminator.
   */
  lemma SetSingleEffectSlots(s: DriverState, f: Faults, effectId: Byte)
    ensures var r := SetSingleEffect(s, f, effectId);
      r.result.Ok? ==>
        && r.state.bus.regs.slots[0] == EffectEntry(effectId)
        && r.state.bus.regs.slots[0].value == effectId % 128
        && (forall j | 1 <= j < SlotCount :: r.state.bus.regs.slots[j] == StopEntry())
  {
    var entries := [EffectEntry(effectId), StopEntry()];
    if SetWaveformSequence(s, f, entries).result.Ok? {
      FirstFaultOkIsFull(s, f, entries);
    }
  }

  /**
   * `set_single_effect_enum`: on success slot 0 holds the effect's ordinal as
   * a non-wait entry, which is never a stop, and slots 1 to 7 hold stops.
   */
  lemma SetSingleEffectEnumSlots(s: DriverState, f: Faults, effect: Effect)
    ensures var r := SetSingleEffectEnum(s, f, effect);
      r.result.Ok? ==>
        && r.state.bus.regs.slots[0] == EffectEntry(Discriminant(effect))
        && r.state.bus.regs.slots[0].value == Discriminant(effect)
        && r.state.bus.regs.slots[0] != StopEntry()
        && (forall j | 1 <= j < SlotCount :: r.state.bus.regs.slots[j] == StopEntry())
  {
    var entries := [EffectFromEnum(effect), StopEntry()];
    EffectFromEnumIsEffectEntry(effect);
    if SetWaveformSequence(s, f, entries).result.Ok? {
      FirstFaultOkIsFull(s, f, entries);
    }
  }

  /** A sequence write that succeeded issued all eight slot writes. */
  lemma FirstFaultOkIsFull(s: DriverState, f: Faults, entries: seq<WaveformEntry>)
    requires |entries| <= SlotCount
    requires SetWaveformSequence(s, f, entries).result.Ok?
    ensures FirstFault(f, |s.bus.trace|, SlotCount) == SlotCount
    ensures SetWaveformSequence(s, f, entries).state.bus.regs.slots == Padded(entries)
  {
    SetWaveformSequenceOutcome(s, f, entries);
  }
}
