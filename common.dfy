/** Shared vocabulary of both daemon variants: the bytes written to the
    serial line, the Python exceptions that end the handling of a frame,
    the cwdaemon session variables, ASCII text, and the decimal parsing of
    ESC command arguments. */
module Common {

  /** One byte written to the WinKeyer serial line. */
  newtype byte = b: int | 0 <= b < 256

  datatype Option<T> = None | Some(value: T) {
    /** The value, or `default` for `None`: how an omitted keyword argument
        keeps a stored setting. */
    function GetOr(default: T): T {
      match this
      case Some(v) => v
      case None => default
    }
  }

  /** The Python exceptions that can end the handling of one frame. */
  datatype PyError = IndexError | ValueError | TypeError | AssertionError

  /** How the handling of one frame ends. `NonAscii` marks a keyed message
      holding a code point of 128 or more, whose Unicode upper-casing and
      UTF-8 encoding lie outside this model; nothing is written then. */
  datatype Outcome = Handled | Raised(error: PyError) | NonAscii

  /** The session variables `state_speed`, `state_ptt` and `state_delay`. */
  datatype Session = Session(speed: int, ptt: bool, delay: int)

  /** What one frame does: the session afterwards, the bytes appended to
      the serial line, and how the handling ended. */
  datatype Effect = Effect(session: Session, written: seq<byte>, outcome: Outcome)

  /** The cwdaemon escape character that starts a command frame. */
  const Esc: char := 27 as char

  /** The largest Unicode code point `chr` accepts. */
  const MaxCodePoint := 0x10FFFF

  /** A Python string as its sequence of code points. */
  function Points(s: string): (p: seq<int>)
    ensures |p| == |s|
    ensures forall i :: 0 <= i < |s| ==> p[i] == s[i] as int
  {
    seq(|s|, i requires 0 <= i < |s| => s[i] as int)
  }

  predicate IsAsciiPoints(p: seq<int>) {
    forall i :: 0 <= i < |p| ==> 0 <= p[i] < 128
  }

  /** Every code point is one that `chr` can produce. */
  predicate ValidCodePoints(p: seq<int>) {
    forall i :: 0 <= i < |p| ==> 0 <= p[i] <= MaxCodePoint
  }

  /** `str.upper()` on one ASCII code point. */
  function UpperPoint(c: int): int {
    if 'a' as int <= c <= 'z' as int then c - 32 else c
  }

  function Upper(p: seq<int>): (r: seq<int>)
    ensures |r| == |p|
    ensures forall i :: 0 <= i < |p| ==> r[i] == UpperPoint(p[i])
  {
    seq(|p|, i requires 0 <= i < |p| => UpperPoint(p[i]))
  }

  /** `str.encode()` of ASCII text: one byte per code point. */
  function Encode(p: seq<int>): (r: seq<byte>)
    requires IsAsciiPoints(p)
    ensures |r| == |p|
    ensures forall i :: 0 <= i < |p| ==> r[i] as int == p[i]
  {
    seq(|p|, i requires 0 <= i < |p| => p[i] as byte)
  }

  /** What `str.encode()` (UTF-8) really produces for code points below
      0x800: one byte below 0x80, two bytes from 0x80 on. */
  function Utf8(p: seq<int>): (r: seq<byte>)
    requires forall i :: 0 <= i < |p| ==> 0 <= p[i] < 0x800
  {
    if p == [] then []
    else
      var c := p[0];
      (if c < 0x80 then [c as byte] else [(0xC0 + c / 64) as byte, (0x80 + c % 64) as byte])
      + Utf8(p[1..])
  }

  /** On ASCII the real encoding is the one byte per code point that the
      model writes everywhere. */
  lemma {:induction false} Utf8OfAscii(p: seq<int>)
    requires IsAsciiPoints(p)
    ensures Utf8(p) == Encode(p)
  {
    if p != [] {
      Utf8OfAscii(p[1..]);
      assert Encode(p) == [p[0] as byte] + Encode(p[1..]);
    }
  }

  // Decimal integers, as `int()` reads an ESC command argument.

  predicate IsDigit(c: char) {
    '0' <= c <= '9'
  }

  /** A non-empty run of ASCII decimal digits. */
  predicate IsDigits(s: string) {
    |s| > 0 && forall i :: 0 <= i < |s| ==> IsDigit(s[i])
  }

  function DigitsValue(s: string): nat
    requires forall i :: 0 <= i < |s| ==> IsDigit(s[i])
  {
    if s == [] then 0
    else
      assert IsDigit(s[|s| - 1]);
      DigitsValue(s[..|s| - 1]) * 10 + (s[|s| - 1] as int - '0' as int)
  }

  /** `int(s)` on an optional sign followed by decimal digits; `None`
      stands for the `ValueError` raised on anything else. */
  function ParseInt(s: string): Option<int> {
    if IsDigits(s) then Some(DigitsValue(s) as int)
    else if |s| > 0 && s[0] == '-' && IsDigits(s[1..]) then Some(-(DigitsValue(s[1..]) as int))
    else if |s| > 0 && s[0] == '+' && IsDigits(s[1..]) then Some(DigitsValue(s[1..]))
    else None
  }

  function DigitChar(d: nat): char
    requires d < 10
  {
    ('0' as int + d) as char
  }

  /** `str(n)` for a natural number. */
  function ShowNat(n: nat): (s: string)
    ensures IsDigits(s)
  {
    if n < 10 then [DigitChar(n)] else ShowNat(n / 10) + [DigitChar(n % 10)]
  }

  /** `str(n)`. */
  function ShowInt(n: int): string {
    if n < 0 then "-" + ShowNat(-n) else ShowNat(n)
  }

  lemma {:induction false} DigitsValueOfShowNat(n: nat)
    ensures DigitsValue(ShowNat(n)) == n
  {
    if n >= 10 {
      var s := ShowNat(n);
      assert s[..|s| - 1] == ShowNat(n / 10);
      DigitsValueOfShowNat(n / 10);
    }
  }

  /** Parsing undoes printing: every integer sent as its decimal text is
      read back as itself. */
  lemma ParseShowInt(n: int)
    ensures ParseInt(ShowInt(n)) == Some(n)
  {
    if n < 0 {
      var s := ShowInt(n);
      assert s[1..] == ShowNat(-n);
      assert !IsDigits(s) by { assert !IsDigit(s[0]); }
      DigitsValueOfShowNat(-n);
    } else {
      DigitsValueOfShowNat(n);
    }
  }

  /** Only a sign and digits are accepted, so a bad argument such as an
      empty one is a `ValueError`. */
  lemma ParseIntAccepts(s: string)
    ensures ParseInt(s).Some? <==>
              IsDigits(s) || (|s| > 0 && (s[0] == '-' || s[0] == '+') && IsDigits(s[1..]))
  {
  }
}
