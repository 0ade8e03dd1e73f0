/**
 * The numeric severity levels of Python's `logging` module and the names it
 * gives them (`logging.getLevelName`). Levels are plain integers: every gate
 * in the system is a `>=` comparison between two of them.
 */
module Levels {

  const NOTSET: int := 0
  const DEBUG: int := 10
  const INFO: int := 20
  const WARNING: int := 30
  const ERROR: int := 40
  const CRITICAL: int := 50

  /** The five levels the colour table has an entry for. */
  predicate IsStandard(levelno: int) {
    levelno == DEBUG || levelno == INFO || levelno == WARNING || levelno == ERROR || levelno == CRITICAL
  }

  function Digit(d: nat): char
    requires d < 10
  {
    "0123456789"[d]
  }

  /** Decimal digits of a natural number, as `str(n)` writes them. */
  function NatToString(n: nat): (s: string)
    ensures |s| >= 1
    ensures forall i :: 0 <= i < |s| ==> '0' <= s[i] <= '9'
  {
    if n < 10 then [Digit(n)] else NatToString(n / 10) + [Digit(n % 10)]
  }

  /** `str(n)` for any integer: a minus sign before the digits of a negative one. */
  function IntToString(n: int): string {
    if n < 0 then "-" + NatToString(-n) else NatToString(n)
  }

  /** The number a string of decimal digits denotes, as `int(s)` reads it. */
  function DigitsValue(s: string): nat
    requires forall i :: 0 <= i < |s| ==> '0' <= s[i] <= '9'
  {
    if s == [] then 0 else DigitsValue(s[..|s| - 1]) * 10 + (s[|s| - 1] as int - '0' as int)
  }

  /** `str(n)` writes no leading zero: only 0 itself starts with the digit 0. */
  lemma {:induction false} NatToStringNoLeadingZero(n: nat)
    ensures n >= 10 ==> NatToString(n)[0] != '0'
    ensures n < 10 ==> NatToString(n) == [Digit(n)]
  {
    if n >= 10 {
      NatToStringNoLeadingZero(n / 10);
      assert NatToString(n)[0] == NatToString(n / 10)[0];
      if n / 10 < 10 {
        assert Digit(n / 10) != '0';
      }
    }
  }

  /** The digits `str` writes for a natural number read back as that number. */
  lemma {:induction false} NatToStringValue(n: nat)
    ensures DigitsValue(NatToString(n)) == n
  {
    var s := NatToString(n);
    if n < 10 {
      assert s[..0] == [];
      assert Digit(n) as int - '0' as int == n;
    } else {
      assert s[..|s| - 1] == NatToString(n / 10);
      assert s[|s| - 1] == Digit(n % 10);
      assert Digit(n % 10) as int - '0' as int == n % 10;
      NatToStringValue(n / 10);
    }
  }

  lemma SignThenDigits(t: string)
    ensures |"-" + t| == |t| + 1 && ("-" + t)[0] == '-' && ("-" + t)[1..] == t
  {
  }

  /** A negative number's text: a minus sign, then digits that read back as its magnitude `m`. */
  lemma NegativeRead(n: int, m: nat)
    requires n < 0 && m == -n
    ensures |IntToString(n)| >= 2 && IntToString(n)[0] == '-' && DigitsValue(IntToString(n)[1..]) == m
  {
    var t := NatToString(m);
    assert IntToString(n) == "-" + t;
    SignThenDigits(t);
    NatToStringValue(m);
  }

  /** `int(str(n)) == n`: the sign and the digits of `IntToString` give back `n`. */
  lemma IntToStringValue(n: int)
    ensures n < 0 ==> (|IntToString(n)| >= 2 && IntToString(n)[0] == '-'
                       && DigitsValue(IntToString(n)[1..]) == -n)
    ensures n >= 0 ==> DigitsValue(IntToString(n)) == n
  {
    if n < 0 {
      NegativeRead(n, -n);
    } else {
      NatToStringValue(n);
    }
  }

  /**
   * `logging.getLevelName(levelno)`: the registered name of one of the six
   * predefined levels, otherwise "Level <n>".
   */
  function LevelName(levelno: int): (name: string)
    ensures IsStandard(levelno) ==> 4 <= |name| <= 8
    ensures levelno == NOTSET ==> name == "NOTSET"
    ensures !IsStandard(levelno) && levelno != NOTSET ==> name == "Level " + IntToString(levelno)
    ensures !IsStandard(levelno) && levelno != NOTSET ==> |name| > 6 && name[..6] == "Level "
  {
    if levelno == CRITICAL then "CRITICAL"
    else if levelno == ERROR then "ERROR"
    else if levelno == WARNING then "WARNING"
    else if levelno == INFO then "INFO"
    else if levelno == DEBUG then "DEBUG"
    else if levelno == NOTSET then "NOTSET"
    else "Level " + IntToString(levelno)
  }
}
