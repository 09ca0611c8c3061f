/**
 * The library effects of the DRV2605 ROM. `Effect` is a `#[repr(u8)]` enum
 * whose variants carry explicit discriminants 1..123; a value of the enum is
 * modelled as its discriminant, and each variant as a named constant.
 */
module Effects {
  import opened Primitives
  import opened Waveform

  newtype Effect = n: int | 1 <= n <= 123 witness 1

  const StrongClick100: Effect := 1
  const StrongClick60: Effect := 2
  const StrongClick30: Effect := 3
  const SharpClick100: Effect := 4
  const SharpClick60: Effect := 5
  const SharpClick30: Effect := 6
  const SoftBump100: Effect := 7
  const SoftBump60: Effect := 8
  const SoftBump30: Effect := 9
  const DoubleClick100: Effect := 10
  const DoubleClick60: Effect := 11
  const TripleClick100: Effect := 12
  const SoftFuzz60: Effect := 13
  const StrongBuzz100: Effect := 14
  const Alert750ms: Effect := 15
  const Alert1000ms: Effect := 16
  const StrongClick1_100: Effect := 17
  const StrongClick2_80: Effect := 18
  const StrongClick3_60: Effect := 19
  const StrongClick4_30: Effect := 20
  const MediumClick1_100: Effect := 21
  const MediumClick2_80: Effect := 22
  const MediumClick3_60: Effect := 23
  const SharpTick1_100: Effect := 24
  const SharpTick2_80: Effect := 25
  const SharpTick3_60: Effect := 26
  const ShortDoubleClickStrong1_100: Effect := 27
  const ShortDoubleClickStrong2_80: Effect := 28
  const ShortDoubleClickStrong3_60: Effect := 29
  const ShortDoubleClickStrong4_30: Effect := 30
  const ShortDoubleClickMedium1_100: Effect := 31
  const ShortDoubleClickMedium2_80: Effect := 32
  const ShortDoubleClickMedium3_60: Effect := 33
  const ShortDoubleSharpTick1_100: Effect := 34
  const ShortDoubleSharpTick2_80: Effect := 35
  const ShortDoubleSharpTick3_60: Effect := 36
  const LongDoubleSharpClickStrong1_100: Effect := 37
  const LongDoubleSharpClickStrong2_80: Effect := 38
  const LongDoubleSharpClickStrong3_60: Effect := 39
  const LongDoubleSharpClickStrong4_30: Effect := 40
  const LongDoubleSharpClickMedium1_100: Effect := 41
  const LongDoubleSharpClickMedium2_80: Effect := 42
  const LongDoubleSharpClickMedium3_60: Effect := 43
  const LongDoubleSharpTick1_100: Effect := 44
  const LongDoubleSharpTick2_80: Effect := 45
  const LongDoubleSharpTick3_60: Effect := 46
  const Buzz1_100: Effect := 47
  const Buzz2_80: Effect := 48
  const Buzz3_60: Effect := 49
  const Buzz4_40: Effect := 50
  const Buzz5_20: Effect := 51
  const PulsingStrong1_100: Effect := 52
  const PulsingStrong2_60: Effect := 53
  const PulsingMedium1_100: Effect := 54
  const PulsingMedium2_60: Effect := 55
  const PulsingSharp1_100: Effect := 56
  const PulsingSharp2_60: Effect := 57
  const TransitionClick1_100: Effect := 58
  const TransitionClick2_80: Effect := 59
  const TransitionClick3_60: Effect := 60
  const TransitionClick4_40: Effect := 61
  const TransitionClick5_20: Effect := 62
  const TransitionClick6_10: Effect := 63
  const TransitionHum1_100: Effect := 64
  const TransitionHum2_80: Effect := 65
  const TransitionHum3_60: Effect := 66
  const TransitionHum4_40: Effect := 67
  const TransitionHum5_20: Effect := 68
  const TransitionHum6_10: Effect := 69
  const TransitionRampDownLongSmooth1_100to0: Effect := 70
  const TransitionRampDownLongSmooth2_100to0: Effect := 71
  const TransitionRampDownMediumSmooth1_100to0: Effect := 72
  const TransitionRampDownMediumSmooth2_100to0: Effect := 73
  const TransitionRampDownShortSmooth1_100to0: Effect := 74
  const TransitionRampDownShortSmooth2_100to0: Effect := 75
  const TransitionRampDownLongSharp1_100to0: Effect := 76
  const TransitionRampDownLongSharp2_100to0: Effect := 77
  const TransitionRampDownMediumSharp1_100to0: Effect := 78
  const TransitionRampDownMediumSharp2_100to0: Effect := 79
  const TransitionRampDownShortSharp1_100to0: Effect := 80
  const TransitionRampDownShortSharp2_100to0: Effect := 81
  const TransitionRampUpLongSmooth1_0to100: Effect := 82
  const TransitionRampUpLongSmooth2_0to100: Effect := 83
  const TransitionRampUpMediumSmooth1_0to100: Effect := 84
  const TransitionRampUpMediumSmooth2_0to100: Effect := 85
  const TransitionRampUpShortSmooth1_0to100: Effect := 86
  const TransitionRampUpShortSmooth2_0to100: Effect := 87
  const TransitionRampUpLongSharp1_0to100: Effect := 88
  const TransitionRampUpLongSharp2_0to100: Effect := 89
  const TransitionRampUpMediumSharp1_0to100: Effect := 90
  const TransitionRampUpMediumSharp2_0to100: Effect := 91
  const TransitionRampUpShortSharp1_0to100: Effect := 92
  const TransitionRampUpShortSharp2_0to100: Effect := 93
  const TransitionRampDownLongSmooth1_50to0: Effect := 94
  const TransitionRampDownLongSmooth2_50to0: Effect := 95
  const TransitionRampDownMediumSmooth1_50to0: Effect := 96
  const TransitionRampDownMediumSmooth2_50to0: Effect := 97
  const TransitionRampDownShortSmooth1_50to0: Effect := 98
  const TransitionRampDownShortSmooth2_50to0: Effect := 99
  const TransitionRampDownLongSharp1_50to0: Effect := 100
  const TransitionRampDownLongSharp2_50to0: Effect := 101
  const TransitionRampDownMediumSharp1_50to0: Effect := 102
  const TransitionRampDownMediumSharp2_50to0: Effect := 103
  const TransitionRampDownShortSharp1_50to0: Effect := 104
  const TransitionRampDownShortSharp2_50to0: Effect := 105
  const TransitionRampUpLongSmooth1_0to50: Effect := 106
  const TransitionRampUpLongSmooth2_0to50: Effect := 107
  const TransitionRampUpMediumSmooth1_0to50: Effect := 108
  const TransitionRampUpMediumSmooth2_0to50: Effect := 109
  const TransitionRampUpShortSmooth1_0to50: Effect := 110
  const TransitionRampUpShortSmooth2_0to50: Effect := 111
  const TransitionRampUpLongSharp1_0to50: Effect := 112
  const TransitionRampUpLongSharp2_0to50: Effect := 113
  const TransitionRampUpMediumSharp1_0to50: Effect := 114
  const TransitionRampUpMediumSharp2_0to50: Effect := 115
  const TransitionRampUpShortSharp1_0to50: Effect := 116
  const TransitionRampUpShortSharp2_0to50: Effect := 117
  const LongBuzzForProgrammaticStopping100: Effect := 118
  const SmoothHum1_50: Effect := 119
  const SmoothHum2_40: Effect := 120
  const SmoothHum3_30: Effect := 121
  const SmoothHum4_20: Effect := 122
  const SmoothHum5_10: Effect := 123

  /** `effect as u8`. */
  function Discriminant(e: Effect): (b: Byte)
    ensures 1 <= b <= 123
  {
    e as int
  }

  /**
   * The variants are declared with strictly increasing discriminants that
   * start at 1 and end at 123; with 123 variants this makes them pairwise
   * distinct and consecutive.
   */
  lemma DeclaredInOrder()
    ensures Discriminant(StrongClick100) == 1 && Discriminant(SmoothHum5_10) == 123
    ensures StrongClick100 < StrongClick60 < StrongClick30 < SharpClick100 < SharpClick60 < SharpClick30 < SoftBump100 < SoftBump60 < SoftBump30 < DoubleClick100 < DoubleClick60 < TripleClick100 < SoftFuzz60 < StrongBuzz100 < Alert750ms < Alert1000ms < StrongClick1_100 < StrongClick2_80 < StrongClick3_60 < StrongClick4_30 < MediumClick1_100 < MediumClick2_80 < MediumClick3_60 < SharpTick1_100 < SharpTick2_80 < SharpTick3_60 < ShortDoubleClickStrong1_100 < ShortDoubleClickStrong2_80 < ShortDoubleClickStrong3_60 < ShortDoubleClickStrong4_30 < ShortDoubleClickMedium1_100 < ShortDoubleClickMedium2_80 < ShortDoubleClickMedium3_60 < ShortDoubleSharpTick1_100 < ShortDoubleSharpTick2_80 < ShortDoubleSharpTick3_60 < LongDoubleSharpClickStrong1_100 < LongDoubleSharpClickStrong2_80 < LongDoubleSharpClickStrong3_60 < LongDoubleSharpClickStrong4_30 < LongDoubleSharpClickMedium1_100 < LongDoubleSharpClickMedium2_80 < LongDoubleSharpClickMedium3_60 < LongDoubleSharpTick1_100 < LongDoubleSharpTick2_80 < LongDoubleSharpTick3_60 < Buzz1_100 < Buzz2_80 < Buzz3_60 < Buzz4_40 < Buzz5_20 < PulsingStrong1_100 < PulsingStrong2_60 < PulsingMedium1_100 < PulsingMedium2_60 < PulsingSharp1_100 < PulsingSharp2_60 < TransitionClick1_100 < TransitionClick2_80 < TransitionClick3_60 < TransitionClick4_40 < TransitionClick5_20 < TransitionClick6_10 < TransitionHum1_100 < TransitionHum2_80 < TransitionHum3_60 < TransitionHum4_40 < TransitionHum5_20 < TransitionHum6_10 < TransitionRampDownLongSmooth1_100to0 < TransitionRampDownLongSmooth2_100to0 < TransitionRampDownMediumSmooth1_100to0 < TransitionRampDownMediumSmooth2_100to0 < TransitionRampDownShortSmooth1_100to0 < TransitionRampDownShortSmooth2_100to0 < TransitionRampDownLongSharp1_100to0 < TransitionRampDownLongSharp2_100to0 < TransitionRampDownMediumSharp1_100to0 < TransitionRampDownMediumSharp2_100to0 < TransitionRampDownShortSharp1_100to0 < TransitionRampDownShortSharp2_100to0 < TransitionRampUpLongSmooth1_0to100 < TransitionRampUpLongSmooth2_0to100 < TransitionRampUpMediumSmooth1_0to100 < TransitionRampUpMediumSmooth2_0to100 < TransitionRampUpShortSmooth1_0to100 < TransitionRampUpShortSmooth2_0to100 < TransitionRampUpLongSharp1_0to100 < TransitionRampUpLongSharp2_0to100 < TransitionRampUpMediumSharp1_0to100 < TransitionRampUpMediumSharp2_0to100 < TransitionRampUpShortSharp1_0to100 < TransitionRampUpShortSharp2_0to100 < TransitionRampDownLongSmooth1_50to0 < TransitionRampDownLongSmooth2_50to0 < TransitionRampDownMediumSmooth1_50to0 < TransitionRampDownMediumSmooth2_50to0 < TransitionRampDownShortSmooth1_50to0 < TransitionRampDownShortSmooth2_50to0 < TransitionRampDownLongSharp1_50to0 < TransitionRampDownLongSharp2_50to0 < TransitionRampDownMediumSharp1_50to0 < TransitionRampDownMediumSharp2_50to0 < TransitionRampDownShortSharp1_50to0 < TransitionRampDownShortSharp2_50to0 < TransitionRampUpLongSmooth1_0to50 < TransitionRampUpLongSmooth2_0to50 < TransitionRampUpMediumSmooth1_0to50 < TransitionRampUpMediumSmooth2_0to50 < TransitionRampUpShortSmooth1_0to50 < TransitionRampUpShortSmooth2_0to50 < TransitionRampUpLongSharp1_0to50 < TransitionRampUpLongSharp2_0to50 < TransitionRampUpMediumSharp1_0to50 < TransitionRampUpMediumSharp2_0to50 < TransitionRampUpShortSharp1_0to50 < TransitionRampUpShortSharp2_0to50 < LongBuzzForProgrammaticStopping100 < SmoothHum1_50 < SmoothHum2_40 < SmoothHum3_30 < SmoothHum4_20 < SmoothHum5_10
  {
  }

  /** `WaveformEntry::effect_from_enum`, which `From<Effect>` delegates to. */
  function EffectFromEnum(e: Effect): (w: WaveformEntry)
    ensures w.value == Discriminant(e) && !w.isWait
  {
    WaveformEntry(Discriminant(e), false)
  }

  /**
   * The conversion is a bijection from the effects onto the non-wait entries
   * with values 1 to 123: distinct effects give distinct entries, and an
   * entry comes from some effect exactly when it is such an entry.
   */
  lemma EffectFromEnumBijective(e1: Effect, e2: Effect, w: WaveformEntry)
    ensures EffectFromEnum(e1) == EffectFromEnum(e2) <==> e1 == e2
    ensures (exists e: Effect :: EffectFromEnum(e) == w) <==> !w.isWait && 1 <= w.value <= 123
  {
    if !w.isWait && 1 <= w.value <= 123 {
      assert EffectFromEnum(w.value as Effect) == w;
    }
  }

  /**
   * Converting an effect agrees with masking its discriminant (the mask is the
   * identity below 128) and never yields the terminator (no discriminant is 0).
   */
  lemma EffectFromEnumIsEffectEntry(e: Effect)
    ensures EffectFromEnum(e) == EffectEntry(Discriminant(e))
    ensures EffectFromEnum(e) != StopEntry()
    ensures Fits(EffectFromEnum(e))
  {
  }
}
