/** The text pipeline a keying frame goes through before it is written to
    the keyer: cut at the first NUL, strip trailing whitespace other than
    the space, expand cwdaemon prosigns, and translate in-line `+`/`-`
    into WinKeyer buffered speed changes. */
module Pipeline {
  import opened Common

  const Nul: char := 0 as char

  /** `data[:data.index(chr(0))]` when the frame holds a NUL, else `data`. */
  function TruncateAtNul(s: string): (r: string)
    ensures r <= s
    ensures Nul !in r
    ensures |r| < |s| ==> s[|r|] == Nul
  {
    if s == [] || s[0] == Nul then [] else [s[0]] + TruncateAtNul(s[1..])
  }

  /** Everything from the first NUL on is ignored. */
  lemma TruncateAtFirstNul(a: string, b: string)
    requires Nul !in a
    ensures TruncateAtNul(a + [Nul] + b) == a
  {
    var s := a + [Nul] + b;
    assert s[|a|] == Nul;
    assert s[..|a|] == a;
  }

  lemma TruncateNulFree(s: string)
    requires Nul !in s
    ensures TruncateAtNul(s) == s
  {
  }

  /** `string.whitespace` without the space: tab, line feed, carriage
      return, vertical tab and form feed. */
  predicate IsStripped(c: char) {
    c == '\t' || c == '\n' || c == '\r' || c == 11 as char || c == 12 as char
  }

  /** `data.rstrip(WHITESPACE_TO_STRIP)`. */
  function StripTrailing(s: string): (r: string)
    ensures r <= s
    ensures forall i :: |r| <= i < |s| ==> IsStripped(s[i])
    ensures |r| > 0 ==> !IsStripped(r[|r| - 1])
  {
    if s == [] || !IsStripped(s[|s| - 1]) then s else StripTrailing(s[..|s| - 1])
  }

  /** Spaces and interior whitespace survive: a text whose last character
      is not one of the stripped ones is left as it is, and stripping
      twice is stripping once. */
  lemma StripKeepsUnstrippedEnd(s: string)
    requires s == [] || !IsStripped(s[|s| - 1])
    ensures StripTrailing(s) == s
  {
  }

  lemma StripIdempotent(s: string)
    ensures StripTrailing(StripTrailing(s)) == StripTrailing(s)
  {
    StripKeepsUnstrippedEnd(StripTrailing(s));
  }

  // Prosigns.

  /** The WinKeyer merge-letters command that keys the next two letters
      as one character. */
  const MergeLetters: char := 0x1B as char

  const ProsignTable: map<char, string> :=
    map['*' := "AR", '=' := "BT", '<' := "SK", '(' := "KN", '!' := "SN", '&' := "AS", '>' := "BK"]

  /** The table's letters are never themselves prosign characters. */
  lemma ProsignLettersArePlain(c: char)
    requires c in ProsignTable
    ensures |ProsignTable[c]| == 2
    ensures ProsignTable[c][0] !in ProsignTable && ProsignTable[c][1] !in ProsignTable
  {
  }

  function ExpandChar(c: char): string {
    if c in ProsignTable then [MergeLetters] + ProsignTable[c] else [c]
  }

  function ProsignCount(s: string): nat {
    if s == [] then 0
    else ProsignCount(s[..|s| - 1]) + (if s[|s| - 1] in ProsignTable then 1 else 0)
  }

  /** The reference expansion: every character replaced by its expansion. */
  function Expanded(s: string): (r: string)
    ensures |r| == |s| + 2 * ProsignCount(s)
  {
    if s == [] then []
    else
      Expanded(s[..|s| - 1]) + ExpandChar(s[|s| - 1])
  }

  /** `_expand_cwdaemon_prosigns_for_winkeyer`. */
  method ExpandProsigns(s: string) returns (rval: string)
    ensures rval == Expanded(s)
  {
    rval := "";
    for i := 0 to |s|
      invariant rval == Expanded(s[..i])
    {
      assert s[..i + 1][..i] == s[..i];
      var c := s[i];
      if c in ProsignTable {
        rval := rval + [MergeLetters] + ProsignTable[c];
      } else {
        rval := rval + [c];
      }
    }
    assert s[..|s|] == s;
  }

  /** Expansion works character by character. */
  lemma {:induction false} ExpandedConcat(a: string, b: string)
    ensures Expanded(a + b) == Expanded(a) + Expanded(b)
    decreases |b|
  {
    if b == [] {
      assert a + b == a;
    } else {
      var b' := b[..|b| - 1];
      assert (a + b)[..|a + b| - 1] == a + b';
      ExpandedConcat(a, b');
    }
  }

  lemma {:induction false} ProsignCountPositive(s: string)
    ensures ProsignCount(s) > 0 <==> exists i :: 0 <= i < |s| && s[i] in ProsignTable
  {
    if s != [] {
      var s' := s[..|s| - 1];
      ProsignCountPositive(s');
      if exists i :: 0 <= i < |s'| && s'[i] in ProsignTable {
        var i :| 0 <= i < |s'| && s'[i] in ProsignTable;
        assert s[i] in ProsignTable;
      }
      if exists i :: 0 <= i < |s| && s[i] in ProsignTable {
        var i :| 0 <= i < |s| && s[i] in ProsignTable;
        if i < |s| - 1 {
          assert s'[i] in ProsignTable;
        }
      }
    }
  }

  lemma {:induction false} ExpandedPlain(s: string)
    requires forall i :: 0 <= i < |s| ==> s[i] !in ProsignTable
    ensures Expanded(s) == s
  {
    if s != [] {
      ExpandedPlain(s[..|s| - 1]);
    }
  }

  /** A text is left unchanged exactly when it holds no prosign character,
      and otherwise it grows by two characters per prosign character. */
  lemma ExpandedIdentity(s: string)
    ensures Expanded(s) == s <==> forall i :: 0 <= i < |s| ==> s[i] !in ProsignTable
  {
    ProsignCountPositive(s);
    if forall i :: 0 <= i < |s| ==> s[i] !in ProsignTable {
      ExpandedPlain(s);
    }
  }

  lemma {:induction false} ExpandedHasNoProsigns(s: string)
    ensures forall i :: 0 <= i < |Expanded(s)| ==> Expanded(s)[i] !in ProsignTable
  {
    if s != [] {
      var c := s[|s| - 1];
      ExpandedHasNoProsigns(s[..|s| - 1]);
      if c in ProsignTable {
        ProsignLettersArePlain(c);
      }
    }
  }

  /** Expansion keeps ASCII text ASCII. */
  lemma {:induction false} ExpandedAscii(s: string)
    requires IsAsciiPoints(Points(s))
    ensures IsAsciiPoints(Points(Expanded(s)))
  {
    if s != [] {
      var s' := s[..|s| - 1];
      assert Points(s') == Points(s)[..|s| - 1];
      ExpandedAscii(s');
      assert Points(s)[|s| - 1] == s[|s| - 1] as int;
      var e := Expanded(s);
      var e' := Expanded(s');
      var x := ExpandChar(s[|s| - 1]);
      assert e == e' + x;
      forall i | 0 <= i < |e|
        ensures 0 <= e[i] as int < 128
      {
        if i < |e'| {
          assert e[i] == e'[i];
          assert Points(e')[i] == e'[i] as int;
        }
      }
    }
  }

  /** Expanding an expanded text changes nothing. */
  lemma ExpandedIdempotent(s: string)
    ensures Expanded(Expanded(s)) == Expanded(s)
  {
    ExpandedHasNoProsigns(s);
    ExpandedPlain(Expanded(s));
  }

  // In-line speed changes.

  /** WinKeyer command: change the speed at this point of the buffer. */
  const BufferedSpeedChange := 0x1C
  /** WinKeyer command: return to the speed set before the buffered changes. */
  const CancelBufferedSpeedChange := 0x1E
  const MinSpeed := 5
  const MaxSpeed := 99

  predicate IsSign(c: char) {
    c == '+' || c == '-'
  }

  predicate HasSign(data: string) {
    '+' in data || '-' in data
  }

  /** The running speed after one `+` (two faster, at most 99) or `-` (two
      slower, at least 5). A `+` from a speed below 5 stays below 5: the
      floor applies to `-` only. */
  function StepSpeed(speed: int, c: char): (r: int)
    requires IsSign(c)
    ensures c == '+' ==> r <= MaxSpeed && r <= speed + 2 && (r == MaxSpeed || r == speed + 2)
    ensures c == '+' && speed <= MaxSpeed ==> speed <= r
    ensures c == '-' ==> r >= MinSpeed && r >= speed - 2 && (r == MinSpeed || r == speed - 2)
    ensures c == '-' && speed >= MinSpeed ==> r <= speed
    ensures 0 < speed <= MaxSpeed ==> 0 < r <= MaxSpeed
  {
    if c == '+' then
      if speed > MaxSpeed - 2 then MaxSpeed else speed + 2
    else
      if speed < MinSpeed + 2 then MinSpeed else speed - 2
  }

  /** The running speed after one character of the text: a sign at
      speed 0 leaves it at 0. */
  function NextSpeed(c: char, speed: int): int {
    if IsSign(c) && speed != 0 then StepSpeed(speed, c) else speed
  }

  /** The code points one character of the text contributes at running
      speed `speed`: a sign at speed 0 is dropped. */
  function Emitted(c: char, speed: int): seq<int> {
    if !IsSign(c) then [c as int]
    else if speed == 0 then []
    else [BufferedSpeedChange, StepSpeed(speed, c)]
  }

  /** The running speed after the whole text. */
  function FinalSpeed(data: string, speed: int): int {
    if data == [] then speed else FinalSpeed(data[1..], NextSpeed(data[0], speed))
  }

  /** `speed_message_data` before the cancel command, as code points
      (`chr(speed)` may be any integer here). */
  function Scanned(data: string, speed: int): seq<int> {
    if data == [] then [] else Emitted(data[0], speed) + Scanned(data[1..], NextSpeed(data[0], speed))
  }

  /** One more character of the loop: the emitted code points move from
      the part still to scan to the part already built. */
  lemma ScanAdvance(data: string, speed: int, i: int, running: int, msg: seq<int>)
    requires 0 <= i < |data|
    requires FinalSpeed(data, speed) == FinalSpeed(data[i..], running)
    requires Scanned(data, speed) == msg + Scanned(data[i..], running)
    ensures FinalSpeed(data, speed) == FinalSpeed(data[i + 1..], NextSpeed(data[i], running))
    ensures Scanned(data, speed) == (msg + Emitted(data[i], running)) + Scanned(data[i + 1..], NextSpeed(data[i], running))
  {
    assert data[i..][1..] == data[i + 1..];
  }

  /** The message keyed for a text at session speed `speed`. */
  function SpeedExpansion(data: string, speed: int): seq<int> {
    if !HasSign(data) then Points(data)
    else Scanned(data, speed) + (if FinalSpeed(data, speed) != 0 then [CancelBufferedSpeedChange] else [])
  }

  /** The `+`/`-` translation loop of `CwdaemonServer.handle`. */
  method ExpandSpeedChanges(data: string, speed: int) returns (msg: seq<int>)
    ensures msg == SpeedExpansion(data, speed)
  {
    if !('+' in data || '-' in data) {
      return Points(data);
    }
    var running := speed;
    msg := [];
    assert data[0..] == data;
    for i := 0 to |data|
      invariant FinalSpeed(data, speed) == FinalSpeed(data[i..], running)
      invariant Scanned(data, speed) == msg + Scanned(data[i..], running)
    {
      ScanAdvance(data, speed, i, running, msg);
      ghost var before, msg0 := running, msg;
      var c := data[i];
      if c == '+' {
        if running != 0 {
          if running > MaxSpeed - 2 {
            running := MaxSpeed;
          } else {
            running := running + 2;
          }
          msg := msg + [BufferedSpeedChange, running];
        }
      } else if c == '-' {
        if running != 0 {
          if running < MinSpeed + 2 {
            running := MinSpeed;
          } else {
            running := running - 2;
          }
          msg := msg + [BufferedSpeedChange, running];
        }
      } else {
        msg := msg + [c as int];
      }
      assert running == NextSpeed(c, before) && msg == msg0 + Emitted(c, before);
    }
    assert data[|data|..] == [];
    if running != 0 {
      msg := msg + [CancelBufferedSpeedChange];
    }
  }

  /** The text with every `+` and `-` deleted. */
  function RemoveSigns(data: string): (r: string)
    ensures !HasSign(r)
  {
    if data == [] then []
    else if IsSign(data[0]) then RemoveSigns(data[1..])
    else [data[0]] + RemoveSigns(data[1..])
  }

  function SignCount(data: string): nat {
    if data == [] then 0 else (if IsSign(data[0]) then 1 else 0) + SignCount(data[1..])
  }

  lemma {:induction false} ScanAtZero(data: string)
    ensures FinalSpeed(data, 0) == 0
    ensures Scanned(data, 0) == Points(RemoveSigns(data))
  {
    if data != [] {
      ScanAtZero(data[1..]);
      if !IsSign(data[0]) {
        assert Points(RemoveSigns(data)) == [data[0] as int] + Points(RemoveSigns(data[1..]));
      }
    }
  }

  lemma {:induction false} RemoveSignsPlain(data: string)
    requires !HasSign(data)
    ensures RemoveSigns(data) == data
  {
    if data != [] {
      assert data[0] in data;
      assert forall c :: c in data[1..] ==> c in data;
      RemoveSignsPlain(data[1..]);
    }
  }

  /** A text without `+` or `-` is keyed as it is. */
  lemma ExpansionWithoutSigns(data: string, speed: int)
    requires !HasSign(data)
    ensures SpeedExpansion(data, speed) == Points(data)
  {
  }

  /** Before any speed is set (speed 0) every `+` and `-` is deleted and no
      speed-change or cancel command is added. */
  lemma ExpansionAtSpeedZero(data: string)
    ensures SpeedExpansion(data, 0) == Points(RemoveSigns(data))
  {
    if HasSign(data) {
      ScanAtZero(data);
    } else {
      RemoveSignsPlain(data);
    }
  }

  lemma NoSignTail(data: string)
    requires data != [] && !HasSign(data)
    ensures !IsSign(data[0]) && !HasSign(data[1..])
  {
    assert data[0] in data;
    assert forall c :: c in data[1..] ==> c in data;
  }

  /** Scanning from a session speed in 0..99 keeps the running speed in
      0..99, and at 0 exactly when it started at 0 (a `+` from 1 gives 3,
      below the floor of 5 that only `-` applies); from a set speed it
      inserts two code points per sign; and it keeps ASCII text ASCII. */
  lemma {:induction false} ScanInRange(data: string, speed: int)
    requires 0 <= speed <= MaxSpeed
    ensures 0 <= FinalSpeed(data, speed) <= MaxSpeed
    ensures FinalSpeed(data, speed) == 0 <==> speed == 0
    ensures !HasSign(data) ==> FinalSpeed(data, speed) == speed
    ensures speed != 0 ==> |Scanned(data, speed)| == |data| + SignCount(data)
    ensures IsAsciiPoints(Points(data)) ==> IsAsciiPoints(Scanned(data, speed))
  {
    if data != [] {
      var next := NextSpeed(data[0], speed);
      var step := Emitted(data[0], speed);
      ScanInRange(data[1..], next);
      var rest := Scanned(data[1..], next);
      if !HasSign(data) {
        NoSignTail(data);
      }
      if IsAsciiPoints(Points(data)) {
        assert Points(data[1..]) == Points(data)[1..];
        assert 0 <= data[0] as int < 128 by { assert Points(data)[0] == data[0] as int; }
        var out := step + rest;
        forall i | 0 <= i < |out|
          ensures 0 <= out[i] < 128
        {
          if i >= |step| {
            assert out[i] == rest[i - |step|];
          }
        }
      }
    }
  }

  /** From a set speed in 1..99, a text with a sign ends with exactly one
      cancel command after the scanned text. */
  lemma ExpansionEndsWithCancel(data: string, speed: int)
    requires 1 <= speed <= MaxSpeed && HasSign(data)
    ensures SpeedExpansion(data, speed) == Scanned(data, speed) + [CancelBufferedSpeedChange]
  {
    ScanInRange(data, speed);
  }

  /** The code points keyed for the text of a frame at session speed
      `speed`, before upper-casing. */
  function KeyedMessage(data: string, speed: int): seq<int> {
    SpeedExpansion(Expanded(StripTrailing(data)), speed)
  }

  /** ASCII text keyed at a speed in 0..99 stays ASCII all the way through. */
  lemma KeyedMessageAscii(data: string, speed: int)
    requires 0 <= speed <= MaxSpeed
    requires IsAsciiPoints(Points(data))
    ensures IsAsciiPoints(KeyedMessage(data, speed))
  {
    var stripped := StripTrailing(data);
    assert Points(stripped) == Points(data)[..|stripped|];
    ExpandedAscii(stripped);
    var e := Expanded(stripped);
    if HasSign(e) {
      ScanInRange(e, speed);
      var out := SpeedExpansion(e, speed);
      forall i | 0 <= i < |out|
        ensures 0 <= out[i] < 128
      {
        if i < |Scanned(e, speed)| {
          assert out[i] == Scanned(e, speed)[i];
        }
      }
    }
  }

  /** Deletes every buffered speed change command with the speed after it. */
  function Unbuffer(p: seq<int>): seq<int> {
    if p == [] then []
    else if p[0] == BufferedSpeedChange && |p| >= 2 then Unbuffer(p[2..])
    else [p[0]] + Unbuffer(p[1..])
  }

  /** The text's own characters keep their order: deleting the inserted
      speed changes from the scan gives back the text without its signs
      (for a text that does not already hold the speed change command). */
  lemma {:induction false} UnbufferRecoversText(data: string, speed: int)
    requires forall i :: 0 <= i < |data| ==> data[i] as int != BufferedSpeedChange
    ensures Unbuffer(Scanned(data, speed)) == Points(RemoveSigns(data))
  {
    if data != [] {
      var next := NextSpeed(data[0], speed);
      var step := Emitted(data[0], speed);
      var rest := Scanned(data[1..], next);
      UnbufferRecoversText(data[1..], next);
      if !IsSign(data[0]) {
        assert (step + rest)[1..] == rest;
        assert Points(RemoveSigns(data)) == [data[0] as int] + Points(RemoveSigns(data[1..]));
      } else if speed != 0 {
        assert (step + rest)[2..] == rest;
      } else {
        assert step + rest == rest;
      }
    }
  }
}
