/** The WinKeyer register encoders of winkeyerdaemon.py: sidetone
    frequency quantisation, the pin-configuration and mode registers,
    weighting, and PTT lead/tail times. */
module Registers {
  import opened Common

  // Sidetone frequency.

  /** WK_SIDETONE_CODES: each supported sidetone frequency (Hz) and its code. */
  const SidetoneCodes: map<int, int> := map[
    4000 := 0x1, 2000 := 0x2, 1333 := 0x3, 1000 := 0x4, 800 := 0x5,
    666 := 0x6, 571 := 0x7, 500 := 0x8, 444 := 0x9, 400 := 0xa]

  /** WK_SIDETONE_FREQUENCIES: the supported frequencies in ascending order. */
  const SidetoneFrequencies: seq<int> := [400, 444, 500, 571, 666, 800, 1000, 1333, 2000, 4000]

  lemma SidetoneFrequenciesAreSortedCodes()
    ensures forall f :: f in SidetoneFrequencies <==> f in SidetoneCodes
    ensures forall i, j :: 0 <= i < j < |SidetoneFrequencies| ==> SidetoneFrequencies[i] < SidetoneFrequencies[j]
  {
  }

  function Distance(a: int, b: int): nat {
    if a < b then b - a else a - b
  }

  /** Choosing f for freq is at least as good as choosing g: f is strictly
      closer, or as close and the higher of the two. */
  predicate Beats(freq: int, f: int, g: int) {
    Distance(freq, f) < Distance(freq, g) || (Distance(freq, f) == Distance(freq, g) && f >= g)
  }

  /** The candidate closest to freq, a tie going to the higher frequency:
      the reference definition the bracket search is proved against. */
  function Nearest(freq: int, fs: seq<int>): int
    requires |fs| > 0
    decreases |fs|
  {
    if |fs| == 1 then fs[0]
    else
      var rest := Nearest(freq, fs[1..]);
      if Beats(freq, fs[0], rest) then fs[0] else rest
  }

  /** The candidate chosen is one of them and beats every other. */
  lemma {:induction false} NearestIsBest(freq: int, fs: seq<int>)
    requires |fs| > 0
    ensures Nearest(freq, fs) in fs
    ensures forall g :: g in fs ==> Beats(freq, Nearest(freq, fs), g)
    decreases |fs|
  {
    if |fs| > 1 {
      NearestIsBest(freq, fs[1..]);
      assert forall g :: g in fs ==> g == fs[0] || g in fs[1..];
    }
  }

  /** Only one candidate beats all the others. */
  lemma BestIsUnique(freq: int, fs: seq<int>, f: int, h: int)
    requires f in fs && h in fs
    requires forall g :: g in fs ==> Beats(freq, f, g)
    requires forall g :: g in fs ==> Beats(freq, h, g)
    ensures f == h
  {
    assert Beats(freq, f, h) && Beats(freq, h, f);
  }

  /** The code of the supported frequency nearest to freq. */
  function SidetoneCode(freq: int): (code: int)
    ensures 0x1 <= code <= 0xa
  {
    var f := Nearest(freq, SidetoneFrequencies);
    NearestIsBest(freq, SidetoneFrequencies);
    CodesInRange(f);
    SidetoneCodes[f]
  }

  lemma CodesInRange(f: int)
    requires f in SidetoneFrequencies
    ensures f in SidetoneCodes && 0x1 <= SidetoneCodes[f] <= 0xa
  {
  }

  /** One of the two ends of the bracket [F[i], F[i+1]) holding freq beats
      every supported frequency: the lower one when it is strictly closer,
      the higher one otherwise. */
  lemma BracketChoiceBeats(freq: int, i: int)
    requires 0 <= i < |SidetoneFrequencies| - 1
    requires SidetoneFrequencies[i] <= freq < SidetoneFrequencies[i + 1]
    ensures var lo, hi := SidetoneFrequencies[i], SidetoneFrequencies[i + 1];
            var chosen := if freq - lo < hi - freq then lo else hi;
            forall g :: g in SidetoneFrequencies ==> Beats(freq, chosen, g)
  {
    SidetoneFrequenciesAreSortedCodes();
    var lo, hi := SidetoneFrequencies[i], SidetoneFrequencies[i + 1];
    forall g | g in SidetoneFrequencies
      ensures g <= lo || g >= hi
    {
      var k :| 0 <= k < |SidetoneFrequencies| && SidetoneFrequencies[k] == g;
      assert k <= i || k >= i + 1;
    }
  }

  /** A frequency at or beyond either end of the table is quantised to that end. */
  lemma ExtremeBeats(freq: int)
    ensures SidetoneFrequencies[0] == 400 && SidetoneFrequencies[|SidetoneFrequencies| - 1] == 4000
    ensures freq <= 400 ==> forall g :: g in SidetoneFrequencies ==> Beats(freq, 400, g)
    ensures freq >= 4000 ==> forall g :: g in SidetoneFrequencies ==> Beats(freq, 4000, g)
  {
  }

  /** A supported frequency is quantised to itself. */
  lemma SupportedIsNearest(freq: int)
    requires freq in SidetoneCodes
    ensures Nearest(freq, SidetoneFrequencies) == freq
  {
    SidetoneFrequenciesAreSortedCodes();
    var n := Nearest(freq, SidetoneFrequencies);
    NearestIsBest(freq, SidetoneFrequencies);
    assert Beats(freq, n, freq);
  }

  lemma CodesOfExtremes()
    ensures SidetoneCodes[400] == 0xa && SidetoneCodes[4000] == 0x1
  {
  }

  lemma SidetoneCodeBelowRange(freq: int)
    requires freq <= 400
    ensures SidetoneCode(freq) == 0xa
  {
    ExtremeBeats(freq);
    NearestIsBest(freq, SidetoneFrequencies);
    BestIsUnique(freq, SidetoneFrequencies, 400, Nearest(freq, SidetoneFrequencies));
    CodesOfExtremes();
  }

  lemma SidetoneCodeAboveRange(freq: int)
    requires freq >= 4000
    ensures SidetoneCode(freq) == 0x1
  {
    ExtremeBeats(freq);
    NearestIsBest(freq, SidetoneFrequencies);
    BestIsUnique(freq, SidetoneFrequencies, 4000, Nearest(freq, SidetoneFrequencies));
    CodesOfExtremes();
  }

  /** wk_sidetone_code: clamp to the extremes, otherwise scan for the first
      supported frequency above freq and pick the closer end of that
      bracket (strict `<`, so an exact midpoint goes to the higher end). */
  method WkSidetoneCode(freq: int) returns (code: int)
    ensures code == SidetoneCode(freq)
    ensures freq <= 400 ==> code == 0xa
    ensures freq >= 4000 ==> code == 0x1
    ensures freq in SidetoneCodes ==> code == SidetoneCodes[freq]
  {
    var minFreq := SidetoneFrequencies[0];
    var maxFreq := SidetoneFrequencies[|SidetoneFrequencies| - 1];
    var chosenFreq := 0;
    ExtremeBeats(freq);
    if freq <= minFreq {
      chosenFreq := minFreq;
    } else if freq >= maxFreq {
      chosenFreq := maxFreq;
    } else {
      var i := 0;
      while true
        invariant 0 <= i < |SidetoneFrequencies| - 1
        invariant SidetoneFrequencies[i] <= freq
        decreases |SidetoneFrequencies| - i
      {
        var currentFreq := SidetoneFrequencies[i];
        var nextFreq := SidetoneFrequencies[i + 1];
        if freq < nextFreq {
          if freq - currentFreq < nextFreq - freq {
            chosenFreq := currentFreq;
          } else {
            chosenFreq := nextFreq;
          }
          BracketChoiceBeats(freq, i);
          break;
        }
        i := i + 1;
      }
    }
    assert chosenFreq in SidetoneFrequencies;
    NearestIsBest(freq, SidetoneFrequencies);
    BestIsUnique(freq, SidetoneFrequencies, chosenFreq, Nearest(freq, SidetoneFrequencies));
    code := SidetoneCodes[chosenFreq];
    if freq <= 400 {
      SidetoneCodeBelowRange(freq);
    } else if freq >= 4000 {
      SidetoneCodeAboveRange(freq);
    }
    if freq in SidetoneCodes {
      SupportedIsNearest(freq);
    }
  }

  /** An exact midpoint between two neighbouring supported frequencies is
      quantised to the higher one. */
  lemma SidetoneTieGoesHigher(freq: int, i: int)
    requires 0 <= i < |SidetoneFrequencies| - 1
    requires freq - SidetoneFrequencies[i] == SidetoneFrequencies[i + 1] - freq
    ensures SidetoneCode(freq) == SidetoneCodes[SidetoneFrequencies[i + 1]]
  {
    SidetoneFrequenciesAreSortedCodes();
    BracketChoiceBeats(freq, i);
    NearestIsBest(freq, SidetoneFrequencies);
    BestIsUnique(freq, SidetoneFrequencies, SidetoneFrequencies[i + 1], Nearest(freq, SidetoneFrequencies));
  }

  // Pin configuration register.

  /** WK_ULTIMATIC_PRIORITY_CODES keys. */
  datatype UltimaticPriority = Normal | Dahs | Dits

  function PriorityCode(p: UltimaticPriority): bv8 {
    match p
    case Normal => 0
    case Dahs => 1
    case Dits => 2
  }

  /** WK_HANG_TIMES: PTT hang time in dits (plus one word space). */
  const HangTimes: set<int> := {1, 2, 4, 8}

  function HangTimeCode(h: int): bv8
    requires h in HangTimes
  {
    if h == 1 then 0 else if h == 2 then 1 else if h == 4 then 2 else 3
  }

  /** The fields the pin-configuration register packs. */
  datatype PinConfig = PinConfig(
    sidetone: bool, key1: bool, key2: bool, ptt: bool,
    priority: UltimaticPriority, hangTime: int)

  predicate ValidPinConfig(p: PinConfig) {
    p.hangTime in HangTimes
  }

  /** The register fields set by the WinKeyer constructor. */
  const DefaultPins := PinConfig(true, true, false, false, Normal, 1)

  /** WK_PINCONFIG_KEY_BITS[corrected][1]. */
  function Key1Bit(corrected: bool): nat {
    if corrected then 3 else 2
  }

  /** WK_PINCONFIG_KEY_BITS[corrected][2]. */
  function Key2Bit(corrected: bool): nat {
    if corrected then 2 else 3
  }

  function Bit(b: bool): bv8 {
    if b then 1 else 0
  }

  /** The byte `_set_pinconfig` writes after command 0x09. */
  function PinConfigByte(corrected: bool, p: PinConfig): bv8
    requires ValidPinConfig(p)
  {
    ((PriorityCode(p.priority) & 3) << 6)
    | ((HangTimeCode(p.hangTime) & 3) << 4)
    | ((Bit(p.key2) & 1) << Key2Bit(corrected))
    | ((Bit(p.key1) & 1) << Key1Bit(corrected))
    | ((Bit(p.sidetone) & 1) << 1)
    | ((Bit(p.ptt) & 1) << 0)
  }

  /** Reads the fields back out of a pin-configuration byte; `None` for
      the priority code 3, which no setting produces. */
  function DecodePinConfig(corrected: bool, b: bv8): Option<PinConfig> {
    var upc := (b >> 6) & 3;
    var hang := (b >> 4) & 3;
    if upc == 3 then None
    else Some(PinConfig(
      (b >> 1) & 1 == 1,
      (b >> Key1Bit(corrected)) & 1 == 1,
      (b >> Key2Bit(corrected)) & 1 == 1,
      b & 1 == 1,
      if upc == 0 then Normal else if upc == 1 then Dahs else Dits,
      if hang == 0 then 1 else if hang == 1 then 2 else if hang == 2 then 4 else 8))
  }

  /** Every field decodes back from the byte, under either key-bit mapping. */
  lemma PinConfigRoundTrip(corrected: bool, p: PinConfig)
    requires ValidPinConfig(p)
    ensures DecodePinConfig(corrected, PinConfigByte(corrected, p)) == Some(p)
  {
    var b := PinConfigByte(corrected, p);
    assert (b >> 6) & 3 == PriorityCode(p.priority);
    assert (b >> 4) & 3 == HangTimeCode(p.hangTime);
  }

  /** Every byte whose priority bits are not 3 is the encoding of the
      configuration it decodes to: the register has no unused bit. */
  lemma PinConfigByteOnto(corrected: bool, b: bv8)
    requires DecodePinConfig(corrected, b).Some?
    ensures ValidPinConfig(DecodePinConfig(corrected, b).value)
    ensures PinConfigByte(corrected, DecodePinConfig(corrected, b).value) == b
  {
    var p := DecodePinConfig(corrected, b).value;
    assert PriorityCode(p.priority) == (b >> 6) & 3;
    assert HangTimeCode(p.hangTime) == (b >> 4) & 3;
  }

  /** The corrected mapping swaps the key1 and key2 bits as a pair: its
      byte is the uncorrected byte of the configuration with the two key
      enables exchanged. */
  lemma CorrectionSwapsKeyBits(p: PinConfig)
    requires ValidPinConfig(p)
    ensures PinConfigByte(true, p) == PinConfigByte(false, p.(key1 := p.key2, key2 := p.key1))
  {
  }

  /** With the constructor defaults the register byte is 0x06 (key1 at
      bit 2, sidetone at bit 1), or 0x0A with the corrected mapping. */
  lemma DefaultPinConfigByte()
    ensures PinConfigByte(false, DefaultPins) == 0x06
    ensures PinConfigByte(true, DefaultPins) == 0x0A
  {
  }

  // WinKeyer mode register.

  /** KEYING_CODES keys: 'B', 'A', 'ultimatic', 'bug'. */
  datatype KeyingMode = ModeB | ModeA | Ultimatic | Bug

  function KeyingCode(m: KeyingMode): bv8 {
    match m
    case ModeB => 0
    case ModeA => 1
    case Ultimatic => 2
    case Bug => 3
  }

  datatype ModeConfig = ModeConfig(swap: bool, keyingMode: KeyingMode, contestSpacing: bool, autospace: bool)

  /** The byte `set_winkeyer_mode` writes after command 0x0E. */
  function ModeByte(m: ModeConfig): bv8 {
    ((KeyingCode(m.keyingMode) & 3) << 4)
    | ((Bit(m.swap) & 1) << 3)
    | ((Bit(m.autospace) & 1) << 1)
    | ((Bit(m.contestSpacing) & 1) << 0)
  }

  /** Reads the settings back out of a mode byte; `None` when a bit the
      encoder never sets (2, 6 or 7) is set. */
  function DecodeMode(b: bv8): Option<ModeConfig> {
    if b & 0xC4 != 0 then None
    else
      var k := (b >> 4) & 3;
      Some(ModeConfig(
        (b >> 3) & 1 == 1,
        if k == 0 then ModeB else if k == 1 then ModeA else if k == 2 then Ultimatic else Bug,
        b & 1 == 1,
        (b >> 1) & 1 == 1))
  }

  /** The mode byte leaves bits 2, 6 and 7 clear and decodes back to its settings. */
  lemma ModeRoundTrip(m: ModeConfig)
    ensures ModeByte(m) & 0xC4 == 0
    ensures DecodeMode(ModeByte(m)) == Some(m)
  {
    var b := ModeByte(m);
    assert (b >> 4) & 3 == KeyingCode(m.keyingMode);
  }

  /** Every byte with bits 2, 6 and 7 clear is the encoding of the settings it decodes to. */
  lemma ModeByteOnto(b: bv8)
    requires DecodeMode(b).Some?
    ensures ModeByte(DecodeMode(b).value) == b
  {
    assert KeyingCode(DecodeMode(b).value.keyingMode) == (b >> 4) & 3;
  }

  // Weighting.

  function Abs(x: int): nat {
    if x < 0 then -x else x
  }

  /** Integer division truncating toward zero, as `int()` of a quotient. */
  function TruncDiv(a: int, b: int): int
    requires b > 0
  {
    if a >= 0 then a / b else -((-a) / b)
  }

  /** winkeyer_weighting: the cwdaemon weighting -50..50 mapped linearly
      onto the WinKeyer range 10..90. The quotient v*80/100 is a multiple
      of 1/5, so the float division is exact enough that `int()` truncates
      it exactly. */
  function WinkeyerWeighting(v: int): (r: int)
    requires -50 <= v <= 50
    ensures 10 <= r <= 90
    ensures Abs(r - 50) * 100 <= Abs(v * 80) < (Abs(r - 50) + 1) * 100
    ensures v >= 0 ==> r >= 50
    ensures v <= 0 ==> r <= 50
  {
    TruncDiv(v * (90 - 10), 50 - -50) + 50
  }

  /** Truncation toward zero makes the mapping symmetric about 50
      (flooring would not: it sends -1 to 49 but 1 to 50). */
  lemma WeightingSymmetric(v: int)
    requires -50 <= v <= 50
    ensures WinkeyerWeighting(-v) - 50 == 50 - WinkeyerWeighting(v)
  {
  }

  lemma WeightingMonotone(v: int, w: int)
    requires -50 <= v <= w <= 50
    ensures WinkeyerWeighting(v) <= WinkeyerWeighting(w)
  {
    if v < 0 && w < 0 {
      assert (-w * 80) / 100 <= (-v * 80) / 100;
    } else if v >= 0 {
      assert (v * 80) / 100 <= (w * 80) / 100;
    }
  }

  lemma WeightingValues()
    ensures WinkeyerWeighting(-50) == 10
    ensures WinkeyerWeighting(0) == 50
    ensures WinkeyerWeighting(50) == 90
    ensures WinkeyerWeighting(-1) == 50
  {
  }

  /** The weighting `set_weighting` writes: the value clamped into 10..90. */
  function ClampWeighting(w: int): (r: int)
    ensures 10 <= r <= 90
    ensures 10 <= w <= 90 ==> r == w
    ensures w < 10 ==> r == 10
    ensures w > 90 ==> r == 90
  {
    if w < 10 then 10 else if w > 90 then 90 else w
  }

  // PTT lead and tail times.

  /** VALID_STEPS: 0 to 250 ms in 10 ms steps. */
  predicate ValidStep(t: int) {
    0 <= t <= 250 && t % 10 == 0
  }

  /** The register value of a lead or tail time: its count of 10 ms steps. */
  function StepCount(t: int): (r: byte)
    requires ValidStep(t)
    ensures r <= 25
    ensures r as int * 10 == t
  {
    (t / 10) as byte
  }
}
