/** The earlier variant, pywinkeyerdaemon.py: a `Winkeyer` that only
    writes commands, and a dispatcher that differs from the newer one in
    ESC '3', '7' and 'a'. Its prosign expansion and text pipeline are the
    same as the newer file's and are modelled by `Pipeline`. */
module Legacy {
  import opened Common
  import opened Registers
  import opened Pipeline
  import Daemon

  class Winkeyer {
    /** Every byte written to the serial port after the host-open handshake. */
    ghost var log: seq<byte>

    constructor ()
      ensures log == []
    {
      log := [];
    }

    method Write(bytes: seq<byte>)
      modifies this
      ensures log == old(log) + bytes
    {
      log := log + bytes;
    }

    /** setspeed: `ok` is false for the AssertionError outside 0..99. */
    method SetSpeed(speed: int) returns (ok: bool)
      modifies this
      ensures ok == (0 <= speed <= 99)
      ensures log == if ok then old(log) + [0x02, speed as byte] else old(log)
    {
      ok := 0 <= speed <= 99;
      if ok {
        Write([0x02, speed as byte]);
      }
    }

    method Abort()
      modifies this
      ensures log == old(log) + [0x0A]
    {
      Write([0x0A]);
    }

    method Send(msg: seq<int>)
      requires IsAsciiPoints(msg)
      modifies this
      ensures log == old(log) + Encode(Upper(msg))
    {
      Write(Encode(Upper(msg)));
    }

    /** tune: `ok` is false for the AssertionError outside 0..99. */
    method Tune(seconds: int) returns (ok: bool)
      modifies this
      ensures ok == (0 <= seconds <= 99)
      ensures log == if ok then old(log) + [0x0A, 0x19, seconds as byte] else old(log)
    {
      ok := 0 <= seconds <= 99;
      if ok {
        Abort();
        Write([0x19, seconds as byte]);
      }
    }

    method Ptt(ptt: bool)
      modifies this
      ensures log == old(log) + [0x18, if ptt then 1 else 0]
    {
      if ptt {
        Write([0x18, 1]);
      } else {
        Write([0x18, 0]);
      }
    }

    /** sidetoneenable: a fixed pin-configuration byte, 0x06 with the
        sidetone on and 0x04 with it off. */
    method SidetoneEnable(enable: bool)
      modifies this
      ensures log == old(log) + [0x09, if enable then 0x06 else 0x04]
    {
      if enable {
        Write([0x09, 0x06]);
      } else {
        Write([0x09, 0x04]);
      }
    }
  }

  /** The fixed bytes are the newer file's pin-configuration register for
      its defaults (uncorrected) with only the sidetone switched. */
  lemma SidetoneBytesArePinconfig(enable: bool)
    ensures (if enable then 0x06 else 0x04) == PinConfigByte(false, DefaultPins.(sidetone := enable)) as int
  {
  }

  /** The earlier ESC commands: '3' and '7' only log, and the PTT command
      is refused while the delay is 0. */
  function Command(s: Session, code: char, arg: string): Effect {
    match code
    case '2' =>
      (match ParseInt(arg)
       case None => Effect(s, [], Raised(ValueError))
       case Some(n) =>
         if 0 <= n <= 99 then Effect(s.(speed := n), [0x02, n as byte], Handled)
         else Effect(s.(speed := n), [], Raised(AssertionError)))
    case '4' => Effect(s, [0x0A], Handled)
    case 'a' =>
      if arg != "0" && arg != "1" then Daemon.Ignored(s)
      else if s.delay == 0 then Daemon.Ignored(s)
      else
        var want := arg == "1";
        if want == s.ptt then Daemon.Ignored(s)
        else Effect(s.(ptt := want), [0x18, if want then 1 else 0], Handled)
    case 'c' =>
      (match ParseInt(arg)
       case None => Effect(s, [], Raised(ValueError))
       case Some(n) =>
         if 1 <= n <= 99 then Effect(s, [0x0A, 0x19, n as byte], Handled) else Daemon.Ignored(s))
    case 'd' =>
      (match ParseInt(arg)
       case None => Effect(s, [], Raised(ValueError))
       case Some(n) => Daemon.Ignored(s.(delay := n)))
    case _ => Daemon.Ignored(s)
  }

  function Respond(s: Session, frame: string): Effect {
    var data := TruncateAtNul(frame);
    if |data| == 0 then Effect(s, [], Raised(IndexError))
    else if data[0] != Esc then Daemon.TextEffect(s, data)
    else if |data| < 2 then Effect(s, [], Raised(IndexError))
    else Command(s, data[1], data[2..])
  }

  class CwdaemonServer {
    const winkeyer: Winkeyer
    var stateSpeed: int
    var statePtt: bool
    var stateDelay: int

    function State(): Session
      reads this
    {
      Session(stateSpeed, statePtt, stateDelay)
    }

    constructor (winkeyer: Winkeyer)
      ensures this.winkeyer == winkeyer
      ensures State() == Session(0, false, 0)
    {
      this.winkeyer := winkeyer;
      stateSpeed := 0;
      statePtt := false;
      stateDelay := 0;
    }

    method Handle(frame: string) returns (outcome: Outcome)
      modifies this, winkeyer
      ensures var e := Respond(old(State()), frame);
              && State() == e.session
              && winkeyer.log == old(winkeyer.log) + e.written
              && outcome == e.outcome
    {
      var data := TruncateAtNul(frame);
      if |data| == 0 {
        return Raised(IndexError);
      }
      if data[0] == Esc {
        if |data| < 2 {
          return Raised(IndexError);
        }
        var code, arg := data[1], data[2..];
        outcome := Handled;
        if code == '2' {
          var speed := ParseInt(arg);
          if speed.None? {
            return Raised(ValueError);
          }
          stateSpeed := speed.value;
          var ok := winkeyer.SetSpeed(speed.value);
          if !ok {
            outcome := Raised(AssertionError);
          }
        } else if code == '4' {
          winkeyer.Abort();
        } else if code == 'a' {
          if arg == "0" || arg == "1" {
            if stateDelay != 0 {
              if arg == "0" {
                if statePtt {
                  winkeyer.Ptt(false);
                  statePtt := false;
                }
              } else {
                if !statePtt {
                  winkeyer.Ptt(true);
                  statePtt := true;
                }
              }
            }
          }
        } else if code == 'c' {
          var seconds := ParseInt(arg);
          if seconds.None? {
            return Raised(ValueError);
          }
          if 0 <= seconds.value <= 99 && seconds.value != 0 {
            var ok := winkeyer.Tune(seconds.value);
          }
        } else if code == 'd' {
          var delay := ParseInt(arg);
          if delay.None? {
            return Raised(ValueError);
          }
          stateDelay := delay.value;
        }
      } else {
        var stripped := StripTrailing(data);
        var expanded := ExpandProsigns(stripped);
        var msg := ExpandSpeedChanges(expanded, stateSpeed);
        if !ValidCodePoints(msg) {
          return Raised(ValueError);
        }
        if !IsAsciiPoints(msg) {
          return NonAscii;
        }
        winkeyer.Send(msg);
        outcome := Handled;
      }
    }
  }

  // Comparison with the newer dispatcher.

  /** ESC '3' and ESC '7' only log: no write, no state change. */
  lemma ToneAndWeightingLogOnly(s: Session, code: char, arg: string)
    requires (code == '3' || code == '7') && Nul !in arg
    ensures Respond(s, Daemon.CommandFrame(code, arg)) == Effect(s, [], Handled)
  {
    Daemon.CommandFrameParts(code, arg);
  }

  /** ESC 'a' acts only while the delay is not 0. */
  lemma PttCommand(s: Session, on: bool)
    ensures Respond(s, Daemon.CommandFrame('a', Daemon.PttArg(on))) ==
            if s.delay != 0 && on != s.ptt then Effect(s.(ptt := on), [0x18, if on then 1 else 0], Handled)
            else Effect(s, [], Handled)
  {
    Daemon.CommandFrameParts('a', Daemon.PttArg(on));
  }

  /** The two PTT gates agree only for a negative delay: at delay 0 only the
      newer file acts, at a positive delay only the earlier one. */
  lemma PttGatesCompared(s: Session, on: bool)
    requires on != s.ptt
    ensures var frame := Daemon.CommandFrame('a', Daemon.PttArg(on));
            && (s.delay < 0 ==> Respond(s, frame) == Daemon.Respond(s, frame))
            && (s.delay == 0 ==> Respond(s, frame).written == [] && Daemon.Respond(s, frame).written != [])
            && (s.delay > 0 ==> Respond(s, frame).written != [] && Daemon.Respond(s, frame).written == [])
  {
    PttCommand(s, on);
    Daemon.PttCommand(s, on);
  }

  /** Apart from ESC '3', '7' and 'a', both variants handle every frame
      identically: the same writes, the same session and the same outcome. */
  lemma VariantsAgree(s: Session, frame: string)
    requires var data := TruncateAtNul(frame);
             !(|data| >= 2 && data[0] == Esc && data[1] in "37a")
    ensures Respond(s, frame) == Daemon.Respond(s, frame)
  {
  }
}
