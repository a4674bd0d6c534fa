/** The `WinKeyer` class of winkeyerdaemon.py: the register fields it keeps
    and the command bytes each method writes. Writing to the serial port
    is modelled as appending to the ghost byte log `log`. */
module Keyer {
  import opened Common
  import opened Registers

  class WinKeyer {
    /** Selects which pin-configuration bits enable key1 and key2. */
    const corrected: bool
    var sidetoneEnable: bool
    var key1Enable: bool
    var key2Enable: bool
    var pttEnable: bool
    var ultimaticPriority: UltimaticPriority
    var hangTime: int
    var leadTime: int
    var tailTime: int
    /** Every byte written to the serial port after the host-open handshake. */
    ghost var log: seq<byte>

    ghost predicate Valid()
      reads this
    {
      hangTime in HangTimes && ValidStep(leadTime) && ValidStep(tailTime)
    }

    /** The stored fields the pin-configuration register packs. */
    function Pins(): PinConfig
      reads this
    {
      PinConfig(sidetoneEnable, key1Enable, key2Enable, pttEnable, ultimaticPriority, hangTime)
    }

    /** The register byte that the stored fields encode to. */
    function PinsByte(): byte
      reads this
      requires Valid()
    {
      PinConfigByte(corrected, Pins()) as byte
    }

    constructor (corrected: bool, setPinconfig: bool)
      ensures Valid() && this.corrected == corrected
      ensures Pins() == DefaultPins && leadTime == 0 && tailTime == 0
      ensures log == if setPinconfig then [0x09, PinConfigByte(corrected, DefaultPins) as byte] else []
    {
      this.corrected := corrected;
      sidetoneEnable := true;
      key1Enable := true;
      key2Enable := false;
      pttEnable := false;
      ultimaticPriority := Normal;
      hangTime := 1;
      leadTime := 0;
      tailTime := 0;
      log := [];
      new;
      if setPinconfig {
        var _ := SetPinconfig(None, None, None, None, None, None);
      }
    }

    /** `self.port.write`. */
    method Write(bytes: seq<byte>)
      modifies this`log
      ensures log == old(log) + bytes
    {
      log := log + bytes;
    }

    /** set_speed: command 0x02; `ok` is false for the AssertionError on a
        speed outside 0..99, which writes nothing. */
    method SetSpeed(speed: int) returns (ok: bool)
      modifies this`log
      ensures ok == (0 <= speed <= 99)
      ensures log == if ok then old(log) + [0x02, speed as byte] else old(log)
    {
      ok := 0 <= speed <= 99;
      if ok {
        Write([0x02, speed as byte]);
      }
    }

    method Abort()
      modifies this`log
      ensures log == old(log) + [0x0A]
    {
      Write([0x0A]);
    }

    /** send: the message upper-cased, one byte per character. */
    method Send(msg: seq<int>)
      requires IsAsciiPoints(msg)
      modifies this`log
      ensures log == old(log) + Encode(Upper(msg))
    {
      Write(Encode(Upper(msg)));
    }

    /** tune: abort what is buffered, then key down for `seconds`; `ok` is
        false for the AssertionError outside 0..99, which writes nothing. */
    method Tune(seconds: int) returns (ok: bool)
      modifies this`log
      ensures ok == (0 <= seconds <= 99)
      ensures log == if ok then old(log) + [0x0A, 0x19, seconds as byte] else old(log)
    {
      ok := 0 <= seconds <= 99;
      if ok {
        Abort();
        Write([0x19, seconds as byte]);
      }
    }

    /** set_first_extension: command 0x10 with 0..250 ms; `ok` is false
        for the AssertionError outside that range. */
    method SetFirstExtension(extension: int) returns (ok: bool)
      modifies this`log
      ensures ok == (0 <= extension <= 250)
      ensures log == if ok then old(log) + [0x10, extension as byte] else old(log)
    {
      ok := 0 <= extension <= 250;
      if ok {
        Write([0x10, extension as byte]);
      }
    }

    /** set_key_compensation: command 0x11 with 0..250 ms. */
    method SetKeyCompensation(compensation: int) returns (ok: bool)
      modifies this`log
      ensures ok == (0 <= compensation <= 250)
      ensures log == if ok then old(log) + [0x11, compensation as byte] else old(log)
    {
      ok := 0 <= compensation <= 250;
      if ok {
        Write([0x11, compensation as byte]);
      }
    }

    /** set_weighting: command 0x03 with the weighting clamped into 10..90. */
    method SetWeighting(weighting: int)
      modifies this`log
      ensures log == old(log) + [0x03, ClampWeighting(weighting) as byte]
    {
      var w := weighting;
      if w < 10 {
        w := 10;
      }
      if w > 90 {
        w := 90;
      }
      Write([0x03, w as byte]);
    }

    /** _set_ptt_lead_tail_time: each given time must be a 10 ms step in
        0..250; a valid lead time is stored before the tail time is
        checked. `ok` is false for the AssertionError, which writes nothing. */
    method SetPttLeadTailTime(lead: Option<int>, tail: Option<int>) returns (ok: bool)
      requires Valid()
      modifies this`leadTime, this`tailTime, this`log
      ensures Valid()
      ensures var leadOk := lead.None? || ValidStep(lead.value);
              var tailOk := tail.None? || ValidStep(tail.value);
              && ok == (leadOk && tailOk)
              && leadTime == (if leadOk then lead.GetOr(old(leadTime)) else old(leadTime))
              && tailTime == (if ok then tail.GetOr(old(tailTime)) else old(tailTime))
      ensures log == if ok then old(log) + [0x04, StepCount(leadTime), StepCount(tailTime)] else old(log)
    {
      if lead.Some? {
        if !ValidStep(lead.value) {
          return false;
        }
        leadTime := lead.value;
      }
      if tail.Some? {
        if !ValidStep(tail.value) {
          return false;
        }
        tailTime := tail.value;
      }
      Write([0x04, (leadTime / 10) as byte, (tailTime / 10) as byte]);
      ok := true;
    }

    method SetLeadTime(lead: int) returns (ok: bool)
      requires Valid()
      modifies this`leadTime, this`tailTime, this`log
      ensures Valid() && tailTime == old(tailTime)
      ensures ok == ValidStep(lead)
      ensures leadTime == if ok then lead else old(leadTime)
      ensures log == if ok then old(log) + [0x04, StepCount(lead), StepCount(tailTime)] else old(log)
    {
      ok := SetPttLeadTailTime(Some(lead), None);
    }

    method SetTailTime(tail: int) returns (ok: bool)
      requires Valid()
      modifies this`leadTime, this`tailTime, this`log
      ensures Valid() && leadTime == old(leadTime)
      ensures ok == ValidStep(tail)
      ensures tailTime == if ok then tail else old(tailTime)
      ensures log == if ok then old(log) + [0x04, StepCount(leadTime), StepCount(tail)] else old(log)
    {
      ok := SetPttLeadTailTime(None, Some(tail));
    }

    /** assert_ptt: command 0x18 with 1 for on, 0 for off. */
    method AssertPtt(ptt: bool)
      modifies this`log
      ensures log == old(log) + [0x18, if ptt then 1 else 0]
    {
      if ptt {
        Write([0x18, 1]);
      } else {
        Write([0x18, 0]);
      }
    }

    /** _set_pinconfig: every argument given replaces its stored field, the
        hang time only when it is one of 1, 2, 4, 8 (otherwise an
        AssertionError after the other fields are stored, and nothing is
        written); then the whole register is written after command 0x09. */
    method SetPinconfig(
      sidetone: Option<bool>, key1: Option<bool>, key2: Option<bool>, ptt: Option<bool>,
      priority: Option<UltimaticPriority>, hang: Option<int>)
      returns (ok: bool)
      requires Valid()
      modifies this
      ensures Valid()
      ensures ok == (hang.None? || hang.value in HangTimes)
      ensures Pins() == PinConfig(
                sidetone.GetOr(old(sidetoneEnable)), key1.GetOr(old(key1Enable)),
                key2.GetOr(old(key2Enable)), ptt.GetOr(old(pttEnable)),
                priority.GetOr(old(ultimaticPriority)),
                if ok then hang.GetOr(old(hangTime)) else old(hangTime))
      ensures leadTime == old(leadTime) && tailTime == old(tailTime)
      ensures log == if ok then old(log) + [0x09, PinsByte()] else old(log)
    {
      if sidetone.Some? {
        sidetoneEnable := sidetone.value;
      }
      if key1.Some? {
        key1Enable := key1.value;
      }
      if key2.Some? {
        key2Enable := key2.value;
      }
      if ptt.Some? {
        pttEnable := ptt.value;
      }
      if priority.Some? {
        ultimaticPriority := priority.value;
      }
      if hang.Some? {
        if hang.value !in HangTimes {
          return false;
        }
        hangTime := hang.value;
      }
      var data := PinConfigByte(corrected, Pins());
      Write([0x09, data as byte]);
      ok := true;
    }

    method SetKey1Enable(enable: bool)
      requires Valid()
      modifies this
      ensures Valid() && leadTime == old(leadTime) && tailTime == old(tailTime)
      ensures Pins() == old(Pins()).(key1 := enable)
      ensures log == old(log) + [0x09, PinsByte()]
    {
      var _ := SetPinconfig(None, Some(enable), None, None, None, None);
    }

    method SetKey2Enable(enable: bool)
      requires Valid()
      modifies this
      ensures Valid() && leadTime == old(leadTime) && tailTime == old(tailTime)
      ensures Pins() == old(Pins()).(key2 := enable)
      ensures log == old(log) + [0x09, PinsByte()]
    {
      var _ := SetPinconfig(None, None, Some(enable), None, None, None);
    }

    method SetUltimaticPriority(priority: UltimaticPriority)
      requires Valid()
      modifies this
      ensures Valid() && leadTime == old(leadTime) && tailTime == old(tailTime)
      ensures Pins() == old(Pins()).(priority := priority)
      ensures log == old(log) + [0x09, PinsByte()]
    {
      var _ := SetPinconfig(None, None, None, None, Some(priority), None);
    }

    method SetHangTime(hang: int) returns (ok: bool)
      requires Valid()
      modifies this
      ensures Valid() && leadTime == old(leadTime) && tailTime == old(tailTime)
      ensures ok == (hang in HangTimes)
      ensures Pins() == if ok then old(Pins()).(hangTime := hang) else old(Pins())
      ensures log == if ok then old(log) + [0x09, PinsByte()] else old(log)
    {
      ok := SetPinconfig(None, None, None, None, None, Some(hang));
    }

    /** set_ptt_enable: automatic PTT during keying. */
    method SetPttEnable(enable: bool)
      requires Valid()
      modifies this
      ensures Valid() && leadTime == old(leadTime) && tailTime == old(tailTime)
      ensures Pins() == old(Pins()).(ptt := enable)
      ensures log == old(log) + [0x09, PinsByte()]
    {
      var _ := SetPinconfig(None, None, None, Some(enable), None, None);
    }

    method SetSidetoneEnable(enable: bool)
      requires Valid()
      modifies this
      ensures Valid() && leadTime == old(leadTime) && tailTime == old(tailTime)
      ensures Pins() == old(Pins()).(sidetone := enable)
      ensures log == old(log) + [0x09, PinsByte()]
    {
      var _ := SetPinconfig(Some(enable), None, None, None, None, None);
    }

    /** set_sidetone_frequency: command 0x01 with the code of the supported
        frequency nearest to `frequency`. */
    method SetSidetoneFrequency(frequency: int)
      modifies this`log
      ensures log == old(log) + [0x01, SidetoneCode(frequency) as byte]
    {
      var code := WkSidetoneCode(frequency);
      Write([0x01, code as byte]);
    }

    /** set_winkeyer_mode: command 0x0E with the packed mode register. */
    method SetWinkeyerMode(swap: bool, keyingMode: KeyingMode, contestSpacing: bool, autospace: bool)
      modifies this`log
      ensures log == old(log) + [0x0E, ModeByte(ModeConfig(swap, keyingMode, contestSpacing, autospace)) as byte]
    {
      var data := ModeByte(ModeConfig(swap, keyingMode, contestSpacing, autospace));
      Write([0x0E, data as byte]);
    }
  }

  /** As written, `(chr(0x09) + chr(data)).encode()` UTF-8 encodes the
      register byte: with the 'dits' priority the byte is 0x86, which goes
      out as the two bytes 0xC2 0x86, so the keyer reads 0xC2 as the
      register value and then receives an extra 0x86. The class writes
      the single byte 0x86 instead. */
  lemma DitsPinconfigAsWritten()
    ensures PinConfigByte(false, DefaultPins.(priority := Dits)) == 0x86
    ensures Utf8([0x09, PinConfigByte(false, DefaultPins.(priority := Dits)) as int]) == [0x09, 0xC2, 0x86]
  {
    assert [0x09, 0x86][1..] == [0x86];
  }
}
