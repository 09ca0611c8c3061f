/**
 * Waveform sequencer entries: a 7-bit value that names a library effect or,
 * with the wait flag set, a pause in 10 ms units. Value 0 without the wait flag
 * is the terminator that ends playback of the sequence.
 */
module Waveform {
  import opened Primitives

  /** Number of waveform sequencer slots (indices 0..7). */
  const SlotCount := 8

  type Slot = i: int | 0 <= i < SlotCount

  datatype WaveformEntry = WaveformEntry(value: Byte, isWait: bool)

  /** `WaveformEntry::effect`: the effect id masked to seven bits. */
  function EffectEntry(effectId: Byte): (e: WaveformEntry)
    ensures e.value == effectId % 128 && e.value < 128
    ensures !e.isWait
  {
    WaveformEntry(Low7(effectId), false)
  }

  /** `WaveformEntry::wait`: the wait time masked to seven bits. */
  function WaitEntry(time10ms: Byte): (e: WaveformEntry)
    ensures e.value == time10ms % 128 && e.value < 128
    ensures e.isWait
  {
    WaveformEntry(Low7(time10ms), true)
  }

  /** `WaveformEntry::stop`: the terminator. */
  function StopEntry(): (e: WaveformEntry)
    ensures e.value == 0 && !e.isWait
  {
    WaveformEntry(0, false)
  }

  /** An entry whose value fits the 7-bit sequencer field. */
  predicate Fits(e: WaveformEntry)
  {
    e.value < 128
  }

  /** Masking is idempotent: re-encoding an effect entry's value changes nothing. */
  lemma EffectEntryIdempotent(effectId: Byte)
    ensures EffectEntry(EffectEntry(effectId).value) == EffectEntry(effectId)
  {
    var v := EffectEntry(effectId).value;
    assert v < 128 && v % 128 == v;
    assert EffectEntry(v).value == v;
  }

  /** An effect entry is the terminator exactly when the id is a multiple of 128. */
  lemma EffectEntryIsStopIff(effectId: Byte)
    ensures EffectEntry(effectId) == StopEntry() <==> effectId % 128 == 0
  {
  }

  /** A wait entry is never the terminator, not even a wait of zero. */
  lemma WaitEntryNeverStop(time10ms: Byte)
    ensures WaitEntry(time10ms) != StopEntry()
  {
  }

  /** The three constructors only ever build entries that fit the 7-bit field. */
  lemma ConstructorsFit(id: Byte, t: Byte)
    ensures Fits(EffectEntry(id)) && Fits(WaitEntry(t)) && Fits(StopEntry())
  {
  }

  /**
   * The eight slot values a sequence of at most eight entries programs: the
   * entries in order, then the terminator in every remaining slot.
   */
  function Padded(entries: seq<WaveformEntry>): (slots: seq<WaveformEntry>)
    requires |entries| <= SlotCount
    ensures |slots| == SlotCount
    ensures forall k | 0 <= k < |entries| :: slots[k] == entries[k]
    ensures forall k | |entries| <= k < SlotCount :: slots[k] == StopEntry()
  {
    entries + seq(SlotCount - |entries|, _ => StopEntry())
  }

  /** Padding is the identity on a full sequence and all-stop on the empty one. */
  lemma PaddedExtremes(entries: seq<WaveformEntry>)
    requires |entries| <= SlotCount
    ensures |entries| == SlotCount ==> Padded(entries) == entries
    ensures entries == [] ==> forall k | 0 <= k < SlotCount :: Padded(entries)[k] == StopEntry()
  {
  }
}
