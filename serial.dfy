/** The USART3 print routines of USART3.h over a model of the serial port whose
    only state is the sequence of characters sent so far: `USART3_Putch` appends
    one character, `USART3_Print` sends a NUL-terminated string of at most 64
    characters and `USART3_Print_Int` sends a number in decimal. */
module Serial {

  newtype uint8 = x: int | 0 <= x < 256

  const NUL: char := 0 as char

  /** The longest string USART3_Print sends. */
  const PRINT_LIMIT: nat := 64

  // ---------------------------------------------------------------------------
  // Specification functions
  // ---------------------------------------------------------------------------

  /** Where USART3_Print stops when it has reached index i: at the first NUL or at
      index 64, whichever comes first. */
  function PrintStop(s: seq<char>, i: nat): (r: nat)
    requires i <= PRINT_LIMIT && i <= |s| && NUL !in s[..i]
    requires PRINT_LIMIT <= |s| || NUL in s[i..]
    ensures i <= r <= PRINT_LIMIT && r <= |s|
    ensures NUL !in s[..r]
    ensures r == PRINT_LIMIT || (r < |s| && s[r] == NUL)
    decreases PRINT_LIMIT - i
  {
    if i == PRINT_LIMIT || s[i] == NUL then i
    else
      assert s[..i + 1] == s[..i] + [s[i]];
      PrintStop(s, i + 1)
  }

  /** What USART3_Print sends for the string s. */
  function Printed(s: seq<char>): (r: seq<char>)
    requires PRINT_LIMIT <= |s| || NUL in s
    ensures |r| <= PRINT_LIMIT && NUL !in r && r <= s
    ensures |r| == PRINT_LIMIT || (|r| < |s| && s[|r|] == NUL)
  {
    assert s[0..] == s;
    s[..PrintStop(s, 0)]
  }

  /** The character of a decimal digit. */
  function DigitChar(d: nat): (c: char)
    requires d < 10
    ensures '0' <= c <= '9'
  {
    (48 + d) as char
  }

  /** The number of decimal digits of n; 0 has one digit. */
  function DigitCount(n: nat): (r: nat)
    ensures r >= 1
  {
    if n < 10 then 1 else 1 + DigitCount(n / 10)
  }

  /** The decimal representation of n, most significant digit first. */
  function Decimal(n: nat): (r: seq<char>)
    ensures |r| == DigitCount(n)
    ensures forall t :: 0 <= t < |r| ==> '0' <= r[t] <= '9'
  {
    if n < 10 then [DigitChar(n)] else Decimal(n / 10) + [DigitChar(n % 10)]
  }

  /** The value of a string of decimal digits: the inverse of Decimal. */
  function DecimalValue(s: seq<char>): nat
    requires forall t :: 0 <= t < |s| ==> '0' <= s[t] <= '9'
  {
    if s == [] then 0 else 10 * DecimalValue(s[..|s| - 1]) + (s[|s| - 1] as int - 48)
  }

  /** The digits stored in cells lo..hi-1 of the digit buffer, sent from cell hi-1
      down to cell lo, as characters. */
  function Stored(cells: seq<uint8>): (r: seq<char>)
    requires forall t :: 0 <= t < |cells| ==> cells[t] < 10
    ensures |r| == |cells|
  {
    if cells == [] then [] else Stored(cells[1..]) + [DigitChar(cells[0] as nat)]
  }

  function Sign(number: int): string
  {
    if number < 0 then "-" else ""
  }

  function Magnitude(number: int): nat
  {
    if number < 0 then -number else number
  }

  // ---------------------------------------------------------------------------
  // The port
  // ---------------------------------------------------------------------------

  class Usart3 {
    /** Every character sent through USART3_Putch so far. */
    var sent: seq<char>

    constructor ()
      ensures sent == []
    {
      sent := [];
    }

    /** `USART3_Putch`: one character goes out. */
    method Putch(ch: char)
      modifies this
      ensures sent == old(sent) + [ch]
    {
      sent := sent + [ch];
    }

    /** `USART3_Print`: sends s[0], s[1], ... up to the first NUL, and never more
      than 64 characters. */
    method Print(s: array<char>)
      requires PRINT_LIMIT <= s.Length || NUL in s[..]
      modifies this
      ensures sent == old(sent) + Printed(s[..])
    {
      var i := 0;
      while i < PRINT_LIMIT
        invariant 0 <= i <= PRINT_LIMIT && i <= s.Length && NUL !in s[..i]
        invariant PRINT_LIMIT <= s.Length || NUL in s[i..]
        invariant PrintStop(s[..], i) == PrintStop(s[..], 0)
        invariant sent == old(sent) + s[..i]
      {
        if s[i] == NUL {
          break;
        }
        Putch(s[i]);
        assert s[..i + 1] == s[..i] + [s[i]];
        i := i + 1;
      }
      assert s[..][..PrintStop(s[..], 0)] == s[..i];
    }

    /** `USART3_Print_Int` with a digit buffer of `cells` cells, filled from cell 1. */
    method PrintIntBuffered(number: int, cells: nat)
      requires number > -0x8000_0000 && number < 0x8000_0000
      requires DigitCount(Magnitude(number)) < cells <= 256
      modifies this
      ensures sent == old(sent) + Sign(number) + Decimal(Magnitude(number))
    {
      var s := new uint8[cells];
      var n := number;
      if n < 0 {
        Putch('-');
        n := -n;
      }
      var j := StoreDigits(s, n);
      SendDigits(s, j);
    }

    /** The emitting loop of USART3_Print_Int: counts down from the last stored
      cell j to cell 1 and sends each digit as its character, so the most
      significant digit goes out first. */
    method SendDigits(s: array<uint8>, j: nat)
      requires j < s.Length && forall t :: 1 <= t <= j ==> s[t] < 10
      modifies this
      ensures sent == old(sent) + Stored(s[1..j + 1])
    {
      var i := j;
      while i > 0
        invariant 0 <= i <= j
        invariant sent == old(sent) + Stored(s[i + 1..j + 1])
      {
        Putch(DigitChar(s[i] as nat));
        StoredPrepend(s[i..j + 1]);
        assert s[i..j + 1][1..] == s[i + 1..j + 1];
        i := i - 1;
      }
    }

    /** `USART3_Print_Int` as written: the buffer `s[5]` with digits stored from
      s[1] holds at most four digits. */
    method PrintInt(number: int)
      requires -9999 <= number <= 9999
      modifies this
      ensures sent == old(sent) + Sign(number) + Decimal(Magnitude(number))
    {
      DigitCountBound(Magnitude(number), 4);
      PrintIntBuffered(number, 5);
    }

    /** USART3_Print_Int with a buffer large enough for every 32-bit value except
      INT_MIN, whose negation overflows. */
    method PrintIntWide(number: int)
      requires -0x8000_0000 < number < 0x8000_0000
      modifies this
      ensures sent == old(sent) + Sign(number) + Decimal(Magnitude(number))
    {
      DigitCountBound(Magnitude(number), 10);
      PrintIntBuffered(number, 11);
    }
  }

  /** The storing loop of USART3_Print_Int: starting at cell 1, it stores the
      lowest decimal digit and divides by ten while two or more digits remain,
      then stores the last digit in the next cell. The last index written is the
      digit count, and the cells from there down to 1 spell n. */
  method StoreDigits(s: array<uint8>, number: nat) returns (j: nat)
    requires DigitCount(number) < s.Length
    modifies s
    ensures j == DigitCount(number)
    ensures forall t :: 1 <= t <= j ==> s[t] < 10
    ensures Stored(s[1..j + 1]) == Decimal(number)
    ensures s[0] == old(s[0]) && forall t :: j < t < s.Length ==> s[t] == old(s[t])
  {
    var i: nat := 1;
    var n := number;
    while n >= 10
      invariant 1 <= i < s.Length
      invariant i - 1 + DigitCount(n) == DigitCount(number)
      invariant forall t :: 1 <= t < i ==> s[t] < 10
      invariant Decimal(number) == Decimal(n) + Stored(s[1..i])
      invariant s[0] == old(s[0]) && forall t :: i <= t < s.Length ==> s[t] == old(s[t])
    {
      PutDigit(s, i, n % 10);
      assert Decimal(n) == Decimal(n / 10) + [DigitChar(n % 10)];
      i := i + 1;
      n := n / 10;
    }
    PutDigit(s, i, n);
    j := i;
  }

  /** Stores digit d in cell i of the digit buffer, after the digits in cells 1 to
      i - 1: the cells 1..i now read as d followed by the earlier digits. */
  method PutDigit(s: array<uint8>, i: nat, d: nat)
    requires 1 <= i < s.Length && d < 10 && forall t :: 1 <= t < i ==> s[t] < 10
    modifies s
    ensures forall t :: 1 <= t <= i ==> s[t] < 10
    ensures Stored(s[1..i + 1]) == [DigitChar(d)] + Stored(old(s[1..i]))
    ensures forall t :: 0 <= t < s.Length && t != i ==> s[t] == old(s[t])
  {
    ghost var before := s[1..i];
    s[i] := d as uint8;
    assert s[1..i + 1][..i - 1] == before;
    StoredAppend(before, s[1..i + 1]);
  }

  // ---------------------------------------------------------------------------
  // Properties
  // ---------------------------------------------------------------------------

  lemma StoredAppend(cells: seq<uint8>, longer: seq<uint8>)
    requires |longer| == |cells| + 1 && longer[..|cells|] == cells
    requires forall t :: 0 <= t < |longer| ==> longer[t] < 10
    ensures Stored(longer) == [DigitChar(longer[|cells|] as nat)] + Stored(cells)
  {
    if cells != [] {
      StoredAppend(cells[1..], longer[1..]);
    }
  }

  lemma StoredPrepend(cells: seq<uint8>)
    requires |cells| >= 1 && forall t :: 0 <= t < |cells| ==> cells[t] < 10
    ensures Stored(cells) == Stored(cells[1..]) + [DigitChar(cells[0] as nat)]
  {
  }

  /** A number has at most d digits exactly when it is below 10^d. */
  lemma {:induction false} DigitCountBound(n: nat, d: nat)
    requires d >= 1
    ensures DigitCount(n) <= d <==> n < Pow10(d)
  {
    if d >= 2 {
      DigitCountBound(n / 10, d - 1);
      assert n / 10 < Pow10(d - 1) <==> n < Pow10(d);
    } else {
      assert Pow10(1) == 10;
    }
  }

  function Pow10(d: nat): (r: nat)
    ensures r >= 1
  {
    if d == 0 then 1 else 10 * Pow10(d - 1)
  }

  /** Reading back the printed digits gives the number. */
  lemma {:induction false} DecimalRoundTrip(n: nat)
    ensures DecimalValue(Decimal(n)) == n
  {
    if n >= 10 {
      DecimalRoundTrip(n / 10);
      var s := Decimal(n);
      assert s[..|s| - 1] == Decimal(n / 10);
    }
  }

  /** Decimal has no leading zero: only 0 itself starts with '0'. */
  lemma {:induction false} DecimalNoLeadingZero(n: nat)
    ensures Decimal(n)[0] == '0' <==> n == 0
    ensures Decimal(0) == "0"
  {
    if n >= 10 {
      DecimalNoLeadingZero(n / 10);
    }
  }

  /** A number has at most four digits exactly when it is at most 9999. */
  lemma FourDigits(n: nat)
    ensures DigitCount(n) <= 4 <==> n <= 9999
  {
    DigitCountBound(n, 4);
    assert Pow10(4) == 10000;
  }

  /** USART3_Print sends the longest NUL-free prefix of s of at most 64
      characters: no longer such prefix exists. */
  lemma PrintedIsLongest(s: seq<char>, t: nat)
    requires PRINT_LIMIT <= |s| || NUL in s
    requires t <= |s| && t <= PRINT_LIMIT && NUL !in s[..t]
    ensures t <= |Printed(s)|
  {
  }

  /** The as-written digit buffer of five cells, filled from cell 1: for 12345
      the storing loop ends with the digit count 5 as its index, so the store of
      the last digit writes cell 5, past the last cell 4. */
  lemma FiveDigitNumberOverflowsBuffer()
    ensures DigitCount(12345) == 5 && !(DigitCount(12345) < 5)
  {
    assert DigitCount(12) == 2;
    assert DigitCount(1234) == 4;
  }
}
