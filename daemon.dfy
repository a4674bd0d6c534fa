/** `CwdaemonServer.handle` of winkeyerdaemon.py: one UDP frame at a time,
    either an ESC command or text to key, against the session variables
    `state_speed`, `state_ptt` and `state_delay`. */
module Daemon {
  import opened Common
  import opened Registers
  import opened Pipeline
  import opened Keyer

  /** A keying frame: `chr` of an impossible running speed raises
      `ValueError`; a message holding a code point of 128 or more ends as
      `NonAscii` with nothing written; otherwise the message is upper-cased
      and written. The session is never changed. */
  function TextEffect(s: Session, data: string): Effect {
    var msg := KeyedMessage(data, s.speed);
    if !ValidCodePoints(msg) then Effect(s, [], Raised(ValueError))
    else if !IsAsciiPoints(msg) then Effect(s, [], NonAscii)
    else Effect(s, Encode(Upper(msg)), Handled)
  }

  function Ignored(s: Session): Effect {
    Effect(s, [], Handled)
  }

  /** ESC command `code` with argument `arg`. Codes that are not listed
      only log, or do nothing at all. */
  function Command(s: Session, code: char, arg: string): Effect {
    match code
    case '2' =>
      (match ParseInt(arg)
       case None => Effect(s, [], Raised(ValueError))
       case Some(n) =>
         // the session speed is stored before the keyer checks it
         if 0 <= n <= 99 then Effect(s.(speed := n), [0x02, n as byte], Handled)
         else Effect(s.(speed := n), [], Raised(AssertionError)))
    case '3' =>
      // the tone argument is still a string when it is compared with ints
      Effect(s, [], Raised(TypeError))
    case '4' => Effect(s, [0x0A], Handled)
    case '7' =>
      (match ParseInt(arg)
       case None => Effect(s, [], Raised(ValueError))
       case Some(w) =>
         if -50 <= w <= 50 then Effect(s, [0x03, ClampWeighting(WinkeyerWeighting(w)) as byte], Handled)
         else Ignored(s))
    case 'a' =>
      if arg != "0" && arg != "1" then Ignored(s)
      else if s.delay > 0 then Ignored(s)
      else
        var want := arg == "1";
        if want == s.ptt then Ignored(s)
        else Effect(s.(ptt := want), [0x18, if want then 1 else 0], Handled)
    case 'c' =>
      (match ParseInt(arg)
       case None => Effect(s, [], Raised(ValueError))
       case Some(n) =>
         if 1 <= n <= 99 then Effect(s, [0x0A, 0x19, n as byte], Handled) else Ignored(s))
    case 'd' =>
      (match ParseInt(arg)
       case None => Effect(s, [], Raised(ValueError))
       case Some(n) => Ignored(s.(delay := n)))
    case _ => Ignored(s)
  }

  /** The whole of `handle` for one decoded frame. */
  function Respond(s: Session, frame: string): Effect {
    var data := TruncateAtNul(frame);
    if |data| == 0 then Effect(s, [], Raised(IndexError))
    else if data[0] != Esc then TextEffect(s, data)
    else if |data| < 2 then Effect(s, [], Raised(IndexError))
    else Command(s, data[1], data[2..])
  }

  class CwdaemonServer {
    const winkeyer: WinKeyer
    var stateSpeed: int
    var statePtt: bool
    var stateDelay: int

    function State(): Session
      reads this
    {
      Session(stateSpeed, statePtt, stateDelay)
    }

    /** The daemon starts with speed 0 (not set), PTT off and delay 0. */
    constructor (winkeyer: WinKeyer)
      ensures this.winkeyer == winkeyer
      ensures State() == Session(0, false, 0)
    {
      this.winkeyer := winkeyer;
      stateSpeed := 0;
      statePtt := false;
      stateDelay := 0;
    }

    method Handle(frame: string) returns (outcome: Outcome)
      modifies this, winkeyer`log
      ensures var e := Respond(old(State()), frame);
              && State() == e.session
              && winkeyer.log == old(winkeyer.log) + e.written
              && outcome == e.outcome
    {
      var data := TruncateAtNul(frame);
      if |data| == 0 {
        return Raised(IndexError);
      }
      if data[0] == Esc {
        if |data| < 2 {
          return Raised(IndexError);
        }
        var code, arg := data[1], data[2..];
        outcome := Handled;
        if code == '2' {
          var speed := ParseInt(arg);
          if speed.None? {
            return Raised(ValueError);
          }
          stateSpeed := speed.value;
          var ok := winkeyer.SetSpeed(speed.value);
          if !ok {
            outcome := Raised(AssertionError);
          }
        } else if code == '3' {
          outcome := Raised(TypeError);
        } else if code == '4' {
          winkeyer.Abort();
        } else if code == '7' {
          var weighting := ParseInt(arg);
          if weighting.None? {
            return Raised(ValueError);
          }
          if -50 <= weighting.value <= 50 {
            winkeyer.SetWeighting(WinkeyerWeighting(weighting.value));
          }
        } else if code == 'a' {
          if arg == "0" || arg == "1" {
            if stateDelay <= 0 {
              if arg == "0" {
                if statePtt {
                  winkeyer.AssertPtt(false);
                  statePtt := false;
                }
              } else {
                if !statePtt {
                  winkeyer.AssertPtt(true);
                  statePtt := true;
                }
              }
            }
          }
        } else if code == 'c' {
          var seconds := ParseInt(arg);
          if seconds.None? {
            return Raised(ValueError);
          }
          if 0 <= seconds.value <= 99 && seconds.value != 0 {
            var ok := winkeyer.Tune(seconds.value);
          }
        } else if code == 'd' {
          var delay := ParseInt(arg);
          if delay.None? {
            return Raised(ValueError);
          }
          stateDelay := delay.value;
        }
      } else {
        var stripped := StripTrailing(data);
        var expanded := ExpandProsigns(stripped);
        var msg := ExpandSpeedChanges(expanded, stateSpeed);
        if !ValidCodePoints(msg) {
          return Raised(ValueError);
        }
        if !IsAsciiPoints(msg) {
          return NonAscii;
        }
        winkeyer.Send(msg);
        outcome := Handled;
      }
    }

    /** The tone handling the ESC '3' branch evidently intends once the
        argument is an int: 0 turns the sidetone off, anything else sets
        the nearest sidetone frequency and turns the sidetone on. */
    method SetTone(tone: int)
      requires winkeyer.Valid()
      modifies winkeyer
      ensures winkeyer.Valid()
      ensures winkeyer.leadTime == old(winkeyer.leadTime) && winkeyer.tailTime == old(winkeyer.tailTime)
      ensures winkeyer.Pins() == old(winkeyer.Pins()).(sidetone := tone != 0)
      ensures tone == 0 ==> winkeyer.log == old(winkeyer.log) + [0x09, winkeyer.PinsByte()]
      ensures tone != 0 ==> winkeyer.log == old(winkeyer.log) + [0x01, SidetoneCode(tone) as byte, 0x09, winkeyer.PinsByte()]
    {
      if tone == 0 {
        winkeyer.SetSidetoneEnable(false);
      } else {
        ghost var log0, pins0 := winkeyer.log, winkeyer.Pins();
        winkeyer.SetSidetoneFrequency(tone);
        assert winkeyer.Valid() && winkeyer.Pins() == pins0;
        winkeyer.SetSidetoneEnable(true);
        assert winkeyer.log == log0 + [0x01, SidetoneCode(tone) as byte] + [0x09, winkeyer.PinsByte()];
      }
    }
  }

  // Properties of the dispatcher.

  /** An ESC command frame carrying a NUL-free argument. */
  function CommandFrame(code: char, arg: string): string {
    [Esc, code] + arg
  }

  lemma CommandFrameParts(code: char, arg: string)
    requires code != Nul && Nul !in arg
    ensures TruncateAtNul(CommandFrame(code, arg)) == CommandFrame(code, arg)
    ensures CommandFrame(code, arg)[1] == code && CommandFrame(code, arg)[2..] == arg
  {
    var f := CommandFrame(code, arg);
    assert f[2..] == arg;
    assert Nul !in f by {
      assert forall i :: 2 <= i < |f| ==> f[i] == arg[i - 2];
    }
    TruncateNulFree(f);
  }

  lemma ShowIntNulFree(n: int)
    ensures Nul !in ShowInt(n)
  {
    var t := ShowInt(n);
    assert forall i :: 0 <= i < |t| ==> t[i] != Nul by {
      if n < 0 {
        assert forall i :: 1 <= i < |t| ==> t[i] == ShowNat(-n)[i - 1];
      }
    }
  }

  /** Everything from the first NUL of a frame on is ignored. */
  lemma NulEndsFrame(s: Session, a: string, b: string)
    requires Nul !in a
    ensures Respond(s, a + [Nul] + b) == Respond(s, a)
  {
    TruncateAtFirstNul(a, b);
    TruncateNulFree(a);
  }

  /** An empty frame, or a lone ESC, raises `IndexError` before anything
      is written or stored. */
  lemma ShortFramesRaise(s: Session, frame: string)
    requires |TruncateAtNul(frame)| == 0 || TruncateAtNul(frame) == [Esc]
    ensures Respond(s, frame) == Effect(s, [], Raised(IndexError))
  {
  }

  /** ESC '2': the speed is stored whatever it is, and only a speed in
      0..99 reaches the keyer. */
  lemma SpeedCommand(s: Session, n: int)
    ensures Respond(s, CommandFrame('2', ShowInt(n))) ==
            if 0 <= n <= 99 then Effect(s.(speed := n), [0x02, n as byte], Handled)
            else Effect(s.(speed := n), [], Raised(AssertionError))
  {
    ShowIntNulFree(n);
    CommandFrameParts('2', ShowInt(n));
    ParseShowInt(n);
  }

  /** ESC '3' always raises `TypeError`: nothing is written or stored. */
  lemma ToneCommandRaises(s: Session, arg: string)
    requires Nul !in arg
    ensures Respond(s, CommandFrame('3', arg)) == Effect(s, [], Raised(TypeError))
  {
    CommandFrameParts('3', arg);
  }

  /** ESC '4' aborts whatever follows it. */
  lemma AbortCommand(s: Session, arg: string)
    requires Nul !in arg
    ensures Respond(s, CommandFrame('4', arg)) == Effect(s, [0x0A], Handled)
  {
    CommandFrameParts('4', arg);
  }

  /** ESC '7': a weighting in -50..50 is mapped into 10..90 and written;
      anything else in range of `int` is ignored. */
  lemma WeightingCommand(s: Session, w: int)
    ensures var e := Respond(s, CommandFrame('7', ShowInt(w)));
            && e.session == s && e.outcome == Handled
            && (-50 <= w <= 50 ==> e.written == [0x03, WinkeyerWeighting(w) as byte])
            && (!(-50 <= w <= 50) ==> e.written == [])
  {
    ShowIntNulFree(w);
    CommandFrameParts('7', ShowInt(w));
    ParseShowInt(w);
  }

  function PttArg(on: bool): string {
    if on then "1" else "0"
  }

  /** ESC 'a': PTT is switched and recorded only when the delay is not
      positive and the request differs from the recorded state. */
  lemma PttCommand(s: Session, on: bool)
    ensures Respond(s, CommandFrame('a', PttArg(on))) ==
            if s.delay <= 0 && on != s.ptt then Effect(s.(ptt := on), [0x18, if on then 1 else 0], Handled)
            else Effect(s, [], Handled)
  {
    CommandFrameParts('a', PttArg(on));
  }

  /** Any other PTT argument, "01" or " 1" say, is ignored. */
  lemma PttOtherArgIgnored(s: Session, arg: string)
    requires Nul !in arg && arg != "0" && arg != "1"
    ensures Respond(s, CommandFrame('a', arg)) == Effect(s, [], Handled)
  {
    CommandFrameParts('a', arg);
  }

  /** Sending the same PTT command twice writes nothing the second time. */
  lemma PttCommandIdempotent(s: Session, on: bool)
    ensures var first := Respond(s, CommandFrame('a', PttArg(on)));
            var second := Respond(first.session, CommandFrame('a', PttArg(on)));
            second == Effect(first.session, [], Handled)
  {
    PttCommand(s, on);
    PttCommand(Respond(s, CommandFrame('a', PttArg(on))).session, on);
  }

  /** ESC 'c': 1..99 seconds aborts and keys down; 0 and anything out of
      range is ignored. */
  lemma TuneCommand(s: Session, n: int)
    ensures Respond(s, CommandFrame('c', ShowInt(n))) ==
            Effect(s, if 1 <= n <= 99 then [0x0A, 0x19, n as byte] else [], Handled)
  {
    ShowIntNulFree(n);
    CommandFrameParts('c', ShowInt(n));
    ParseShowInt(n);
  }

  /** ESC 'd' only stores the delay. */
  lemma DelayCommand(s: Session, n: int)
    ensures Respond(s, CommandFrame('d', ShowInt(n))) == Effect(s.(delay := n), [], Handled)
  {
    ShowIntNulFree(n);
    CommandFrameParts('d', ShowInt(n));
    ParseShowInt(n);
  }

  /** A malformed numeric argument raises `ValueError` with no effect. */
  lemma BadNumberRaises(s: Session, code: char, arg: string)
    requires code in "27cd" && Nul !in arg && ParseInt(arg).None?
    ensures Respond(s, CommandFrame(code, arg)) == Effect(s, [], Raised(ValueError))
  {
    CommandFrameParts(code, arg);
  }

  /** Every other command code, '1' and unknown ones included, does nothing. */
  lemma SilentCodes(s: Session, code: char, arg: string)
    requires code != Nul && code !in "2347acd" && Nul !in arg
    ensures Respond(s, CommandFrame(code, arg)) == Effect(s, [], Handled)
  {
    CommandFrameParts(code, arg);
  }

  /** Only ESC '2' changes the speed, only ESC 'a' the PTT state and only
      ESC 'd' the delay; text frames change nothing. */
  lemma SessionChanges(s: Session, frame: string)
    ensures var data := TruncateAtNul(frame);
            var e := Respond(s, frame);
            && (e.session.speed != s.speed ==> |data| > 2 && data[0] == Esc && data[1] == '2')
            && (e.session.ptt != s.ptt ==> |data| > 2 && data[0] == Esc && data[1] == 'a')
            && (e.session.delay != s.delay ==> |data| > 2 && data[0] == Esc && data[1] == 'd')
  {
    var data := TruncateAtNul(frame);
    if |data| >= 2 && data[0] == Esc {
      CommandChanges(s, data[1], data[2..]);
    }
  }

  lemma CommandChanges(s: Session, code: char, arg: string)
    ensures var e := Command(s, code, arg);
            && (e.session.speed != s.speed ==> arg != [] && code == '2')
            && (e.session.ptt != s.ptt ==> arg != [] && code == 'a')
            && (e.session.delay != s.delay ==> arg != [] && code == 'd')
  {
    assert ParseInt([]).None?;
  }

  /** An ASCII text frame keyed while the speed is in 0..99 is written in
      full, upper-cased, and leaves the session alone. */
  lemma TextFrameKeyed(s: Session, frame: string)
    requires 0 <= s.speed <= 99
    requires var data := TruncateAtNul(frame); |data| > 0 && data[0] != Esc && IsAsciiPoints(Points(data))
    ensures var data := TruncateAtNul(frame);
            var msg := KeyedMessage(data, s.speed);
            IsAsciiPoints(msg) && Respond(s, frame) == Effect(s, Encode(Upper(msg)), Handled)
  {
    KeyedMessageAscii(TruncateAtNul(frame), s.speed);
  }

  /** Buffered speeds are upper-cased with the text: from speed 95, '+'
      buffers 97 ('a'), which goes out as 65 ('A'). */
  lemma SpeedBytesUpperCased()
    ensures Respond(Session(95, false, 0), "+") == Effect(Session(95, false, 0), [0x1C, 65, 0x1E], Handled)
  {
    var s := Session(95, false, 0);
    assert StripTrailing("+") == "+";
    assert Expanded("+") == "+" by {
      ExpandedPlain("+");
    }
    assert "+"[1..] == [];
    assert Scanned("+", 95) == [0x1C, 97];
    assert KeyedMessage("+", 95) == [0x1C, 97, 0x1E];
  }

  /** A speed of -3 or less, stored by a rejected ESC '2', makes a later
      `+` ask for `chr` of a negative number, which raises ValueError. */
  lemma NegativeSpeedCrashesText(s: Session)
    requires s.speed <= -3
    ensures Respond(s, "+") == Effect(s, [], Raised(ValueError))
  {
    var v := s.speed + 2;
    SignKeyed(s, '+');
    assert StepSpeed(s.speed, '+') == v;
    assert KeyedMessage("+", s.speed) == [0x1C, v, 0x1E];
    assert !ValidCodePoints([0x1C, v, 0x1E]) by {
      assert [0x1C, v, 0x1E][1] == v;
    }
  }

  /** From any negative stored speed, `-` is floored at 5, so the text
      keys a buffered speed of 5 and the cancel byte. */
  lemma NegativeSpeedMinusFloors(s: Session)
    requires s.speed < 0
    ensures Respond(s, "-") == Effect(s, [0x1C, 0x05, 0x1E], Handled)
  {
    SignKeyed(s, '-');
    assert StepSpeed(s.speed, '-') == 5;
    var msg := [0x1C, 5, 0x1E];
    assert KeyedMessage("-", s.speed) == msg;
    assert ValidCodePoints(msg) && IsAsciiPoints(msg);
    assert Upper(msg) == msg;
  }

  /** A frame holding a single sign, at a nonzero speed, is a text frame
      keying the buffered step and the cancel byte. */
  lemma SignKeyed(s: Session, c: char)
    requires IsSign(c) && s.speed != 0 && StepSpeed(s.speed, c) != 0
    ensures Respond(s, [c]) == TextEffect(s, [c])
    ensures KeyedMessage([c], s.speed) == [0x1C, StepSpeed(s.speed, c), 0x1E]
  {
    assert StripTrailing([c]) == [c];
    assert Expanded([c]) == [c] by {
      ExpandedPlain([c]);
    }
    assert [c][1..] == [];
    assert HasSign([c]);
    assert FinalSpeed([c], s.speed) == StepSpeed(s.speed, c);
    assert Scanned([c], s.speed) == [0x1C, StepSpeed(s.speed, c)];
    TruncateNulFree([c]);
  }
}
