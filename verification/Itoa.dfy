/** Number to text: the digit loop and the in-place reversal of `itoa`, against a positional parser. */
module Itoa {
  import opened Arithmetic

  const NUL: char := '\0'

  /** The table of digit characters, mirrored about its middle so that index 35 is '0'. */
  const DIGITS := "ZYXWVUTSRQPONMLKJIHGFEDCBA9876543210123456789ABCDEFGHIJKLMNOPQRSTUVWXYZ"

  function DigitChar(d: nat): char
    requires d < 36
  {
    DIGITS[35 + d]
  }

  /** The value of a digit character; 36 for any other character. */
  function DigitValue(c: char): nat {
    if '0' <= c <= '9' then (c - '0') as nat
    else if 'A' <= c <= 'Z' then 10 + (c - 'A') as nat
    else 36
  }

  lemma DigitRoundTrip(d: nat)
    requires d < 36
    ensures DigitValue(DigitChar(d)) == d
  {
    if d < 18 {
      LowerHalf(d);
    } else {
      UpperHalf(d);
    }
    hide *;
  }

  lemma LowerHalf(d: nat)
    requires d < 18
    ensures DigitValue(DigitChar(d)) == d
  {
  }

  lemma UpperHalf(d: nat)
    requires 18 <= d < 36
    ensures DigitValue(DigitChar(d)) == d
  {
  }

  predicate DigitsOf(s: string, base: nat) {
    forall i :: 0 <= i < |s| ==> DigitValue(s[i]) < base
  }

  /** The number that digits denote, the most significant first. */
  function Parse(s: string, base: nat): nat {
    if s == "" then 0 else Parse(s[..|s| - 1], base) * base + DigitValue(s[|s| - 1])
  }

  /** The number that digits denote, the least significant first. */
  function ParseBackwards(s: string, base: nat): nat {
    if s == "" then 0 else DigitValue(s[0]) + ParseBackwards(s[1..], base) * base
  }

  function Reversed(s: string): (r: string)
    ensures |r| == |s|
  {
    if s == "" then "" else Reversed(s[1..]) + [s[0]]
  }

  lemma {:induction false} ReversedAt(s: string, k: nat)
    requires k < |s|
    ensures Reversed(s)[k] == s[|s| - 1 - k]
  {
    if |s| > 1 {
      ReversedAt(s[1..], if k < |s| - 1 then k else 0);
    }
  }

  lemma {:induction false} ParseReversed(s: string, base: nat)
    ensures Parse(Reversed(s), base) == ParseBackwards(s, base)
  {
    if s != "" {
      ParseReversed(s[1..], base);
      var r := Reversed(s);
      assert r[..|r| - 1] == Reversed(s[1..]);
    }
  }

  // ----- The digits, least significant first -----

  function Power(b: nat, e: nat): nat {
    if e == 0 then 1 else b * Power(b, e - 1)
  }

  lemma Distribute(p: nat, d: nat, q: nat, b: nat)
    ensures (p + d * q) * b == p * b + d * (b * q)
  {
    assert d * q * b == d * (b * q);
  }

  /** One more digit, more significant than the ones there are. */
  lemma {:induction false} ParseBackwardsAppend(s: string, c: char, base: nat)
    ensures ParseBackwards(s + [c], base) == ParseBackwards(s, base) + DigitValue(c) * Power(base, |s|)
  {
    hide DigitValue;
    if s == "" {
      assert ("" + [c])[1..] == "";
    } else {
      assert (s + [c])[1..] == s[1..] + [c];
      ParseBackwardsAppend(s[1..], c, base);
      Distribute(ParseBackwards(s[1..], base), DigitValue(c), Power(base, |s| - 1), base);
    }
  }

  lemma {:induction false} PowerGrows(b: nat, e: nat)
    requires b >= 2
    ensures Power(b, e) >= Power(2, e) >= 1
  {
    if e > 0 {
      PowerGrows(b, e - 1);
      MulAtLeastTwo(b, Power(b, e - 1));
    }
  }

  lemma MulAtLeastTwo(b: nat, x: nat)
    requires b >= 2
    ensures b * x >= 2 * x
  {
    assert b * x == 2 * x + (b - 2) * x;
  }

  lemma {:induction false} PowerAdd(a: nat, b: nat)
    ensures Power(2, a + b) == Power(2, a) * Power(2, b)
  {
    if a > 0 {
      PowerAdd(a - 1, b);
    }
  }

  lemma PowerFour()
    ensures Power(2, 4) == 16
  {
  }

  lemma PowerDouble(a: nat)
    ensures Power(2, 2 * a) == Power(2, a) * Power(2, a)
  {
    PowerAdd(a, a);
  }

  lemma {:induction false} PowerOfTwoBound(e: nat)
    requires Power(2, e) < 0x1_0000_0000_0000_0000
    ensures e < 64
  {
    hide Power;
    PowerFour();
    PowerDouble(4);
    PowerDouble(8);
    PowerDouble(16);
    PowerDouble(32);
    PowerMonotone(64, e);
  }

  lemma {:induction false} PowerMonotone(d: nat, e: nat)
    ensures d <= e ==> Power(2, d) <= Power(2, e)
    decreases e
  {
    if d < e {
      PowerMonotone(d, e - 1);
    }
  }

  // ----- The digit loop -----

  /** `done` holds the digits of `value` taken so far, `rest` is what they have left of it. */
  ghost predicate Taken(value: nat, base: nat, done: string, rest: nat) {
    && DigitsOf(done, base)
    && value == ParseBackwards(done, base) + rest * Power(base, |done|)
    && (rest == 0 && value > 0 && done != "" ==> done[|done| - 1] != '0')
  }

  lemma TakeDigit(value: nat, base: nat, done: string, rest: nat, next: nat, d: nat)
    requires base <= 36 && Taken(value, base, done, rest)
    requires rest == next * base + d && d < base && (next == 0 ==> d == rest) && (rest > 0 || done == "")
    ensures Taken(value, base, done + [DigitChar(d)], next)
  {
    var c := DigitChar(d);
    DigitRoundTrip(d);
    assert c == '0' ==> d == 0;
    TakeValue(value, base, done, rest, c, next);
    ParseOfNothing(base, done);
    hide DigitChar, Power, ParseBackwards, DigitValue;
  }

  lemma ParseOfNothing(base: nat, done: string)
    ensures done == "" ==> ParseBackwards(done, base) == 0 && Power(base, |done|) == 1
  {
  }

  lemma TakeValue(value: nat, base: nat, done: string, rest: nat, c: char, next: nat)
    requires value == ParseBackwards(done, base) + rest * Power(base, |done|)
    requires rest == next * base + DigitValue(c)
    ensures value == ParseBackwards(done + [c], base) + next * Power(base, |done + [c]|)
  {
    var p := Power(base, |done|);
    assert Power(base, |done + [c]|) == base * p;
    ParseBackwardsAppend(done, c, base);
    TakeAmounts(next, DigitValue(c), base, p);
    hide Power, ParseBackwards, DigitValue;
  }

  lemma TakeAmounts(next: nat, d: nat, base: nat, p: nat)
    ensures (next * base + d) * p == d * p + next * (base * p)
  {
    assert next * base * p == next * (base * p);
  }

  lemma DigitsLeft(value: nat, base: nat, done: string, rest: nat)
    requires base >= 2 && value < 0x1_0000_0000_0000_0000 && Taken(value, base, done, rest) && rest > 0
    ensures |done| < 64
  {
    var p := Power(base, |done|);
    assert rest * p == p + (rest - 1) * p;
    PowerGrows(base, |done|);
    PowerOfTwoBound(|done|);
  }

  lemma Division(rest: nat, base: nat)
    requires base > 0
    ensures 0 <= rest - rest / base * base < base
    ensures rest / base == 0 ==> rest < base
    ensures rest > 0 && base > 1 ==> rest / base < rest
  {
    if rest > 0 && base > 1 {
      assert rest / base * base == rest / base * 2 + rest / base * (base - 2);
    }
  }

  // ----- How many digits there are -----

  function DigitCount(value: nat, base: nat): (n: nat)
    requires base >= 2
    ensures n >= 1
    decreases value
  {
    if value < base then 1
    else
      Division(value, base);
      1 + DigitCount(value / base, base)
  }

  /** Digits still to be written, `rest` being what `n` digits have left. */
  function DigitsToCome(rest: nat, n: nat, base: nat): nat
    requires base >= 2
  {
    if n > 0 && rest == 0 then 0 else DigitCount(rest, base)
  }

  lemma OneDigitLess(rest: nat, n: nat, base: nat)
    requires base >= 2 && (rest > 0 || n == 0)
    ensures DigitsToCome(rest, n, base) == 1 + DigitsToCome(rest / base, n + 1, base)
  {
    Division(rest, base);
    if rest < base {
      QuotientIs(rest, base, 0, rest);
    } else {
      DivisionKeepsOrder(base, rest, base);
      QuotientIs(base, base, 1, 0);
    }
  }

  /** A number below a power of the base has no more digits than its exponent. */
  lemma {:induction false} DigitsBelowPower(value: nat, base: nat, e: nat)
    requires base >= 2 && e >= 1 && value < Power(base, e)
    ensures DigitCount(value, base) <= e
    decreases e
  {
    if value >= base {
      var q, r := value / base, value % base;
      assert value == q * base + r;
      if q >= Power(base, e - 1) {
        MulMono(Power(base, e - 1), q, base, base);
      }
      if e == 1 {
        PowerOfOne(base);
      } else {
        DigitsBelowPower(q, base, e - 1);
      }
    }
  }

  lemma PowerOfOne(base: nat)
    ensures Power(base, 1) == base
  {
  }

  lemma SixteenToThe16()
    ensures Power(16, 16) == 0x1_0000_0000_0000_0000
  {
    assert Power(16, 4) == 0x1_0000;
    assert Power(16, 8) == 0x1_0000_0000;
    assert Power(16, 12) == 0x1_0000_0000_0000;
  }

  /** The text of a 64-bit number in base 16, prefix and NUL included, takes at most 19 places. */
  lemma HexText(value: nat)
    requires value < 0x1_0000_0000_0000_0000
    ensures 2 + DigitCount(value, 16) + 1 <= 19
  {
    SixteenToThe16();
    DigitsBelowPower(value, 16, 16);
  }

  // ----- The two loops -----

  /** Writes the next digit of what is left. */
  method WriteDigit(value: nat, rest: nat, buffer: array<char>, at: nat, base: nat, ghost done: string) returns (next: nat)
    requires 2 <= base <= 36 && value < 0x1_0000_0000_0000_0000 && at < buffer.Length
    requires Taken(value, base, done, rest) && (rest > 0 || done == "")
    modifies buffer
    ensures buffer[..] == old(buffer[..])[at := buffer[at]]
    ensures Taken(value, base, done + [buffer[at]], next)
    ensures next == rest / base && (next < rest || next == rest == 0)
    ensures next > 0 ==> |done| + 1 < 64
  {
    hide Taken;
    next := rest / base;
    Division(rest, base);
    var d := rest - next * base;
    TakeDigit(value, base, done, rest, next, d);
    buffer[at] := DIGITS[35 + d];
    assert buffer[at] == DigitChar(d);
    hide DigitChar;
    if next > 0 {
      DigitsLeft(value, base, done + [buffer[at]], next);
    }
  }

  /** Writes the digits of `value`, least significant first, from `start` on. */
  method WriteDigits(value: nat, buffer: array<char>, start: nat, base: nat) returns (n: nat)
    requires 2 <= base <= 36 && value < 0x1_0000_0000_0000_0000 && start + DigitCount(value, base) <= buffer.Length
    modifies buffer
    ensures 1 <= n == DigitCount(value, base) <= 64 && Taken(value, base, buffer[start..start + n], 0) && (value == 0 ==> n == 1)
    ensures forall i :: 0 <= i < buffer.Length && !(start <= i < start + n) ==> buffer[i] == old(buffer[i])
  {
    var rest: nat := value;
    ghost var done := "";
    n := 0;
    NothingTaken(value, base);
    hide Taken, DigitCount;
    assert DigitsToCome(rest, n, base) == DigitCount(value, base);
    while n == 0 || rest != 0
      invariant Taken(value, base, done, rest) && n == |done| <= 64 && (n == 64 ==> rest == 0)
      invariant value == 0 ==> rest == 0 && n <= 1
      invariant n + DigitsToCome(rest, n, base) == DigitCount(value, base)
      invariant buffer[start..start + n] == done
      invariant forall i :: 0 <= i < buffer.Length && !(start <= i < start + n) ==> buffer[i] == old(buffer[i])
      decreases if n == 0 then 1 else 0, rest
    {
      ghost var was := buffer[..];
      OneDigitLess(rest, n, base);
      rest := WriteDigit(value, rest, buffer, start + n, base, done);
      assert forall i :: 0 <= i < buffer.Length && i != start + n ==> buffer[..][i] == was[i];
      done := done + [buffer[start + n]];
      n := n + 1;
    }
  }

  lemma NothingTaken(value: nat, base: nat)
    ensures Taken(value, base, "", value)
  {
  }

  /** Turns the `n` characters from `start` on around, with two pointers moving towards each other. */
  method ReverseInPlace(buffer: array<char>, start: nat, n: nat)
    requires start + n <= buffer.Length && n >= 1
    modifies buffer
    ensures buffer[start..start + n] == Reversed(old(buffer[start..start + n]))
    ensures forall i :: 0 <= i < buffer.Length && !(start <= i < start + n) ==> buffer[i] == old(buffer[i])
  {
    var left, right := start, start + n - 1;
    while left < right
      invariant start <= left <= right + 1 && left - start == start + n - 1 - right
      invariant forall i :: 0 <= i < buffer.Length && !(start <= i < left || right < i < start + n) ==> buffer[i] == old(buffer[i])
      invariant forall i :: start <= i < left ==> buffer[i] == old(buffer[start + n - 1 - (i - start)])
      invariant forall i :: right < i < start + n ==> buffer[i] == old(buffer[start + n - 1 - (i - start)])
    {
      buffer[left], buffer[right] := buffer[right], buffer[left];
      left, right := left + 1, right - 1;
    }
    ghost var was, now := old(buffer[start..start + n]), buffer[start..start + n];
    forall k | 0 <= k < n
      ensures now[k] == Reversed(was)[k]
    {
      ReversedAt(was, k);
      assert now[k] == buffer[start + k] && was[n - 1 - k] == old(buffer[start + (n - 1 - k)]);
      assert start + n - 1 - (start + k - start) == start + (n - 1 - k);
    }
  }

  /** Length of what stands before the digits. */
  function Prefix(base: int): nat {
    if base == 16 then 2 else 0
  }

  /** The text of a number: its digits with the value they denote, no leading zero but for zero itself,
      at most 64 of them, closed by a NUL; for base 16, and for no other, "0x" stands before the place
      that is returned. */
  method Itoa(value: nat, buffer: array<char>, base: int) returns (start: nat, ghost digits: string)
    requires value < 0x1_0000_0000_0000_0000
    requires buffer.Length > if 2 <= base <= 36 then Prefix(base) + DigitCount(value, base) else 0
    modifies buffer
    ensures !(2 <= base <= 36) ==> start == 0 && buffer[0] == NUL && buffer[1..] == old(buffer[1..])
    ensures 2 <= base <= 36 ==>
      && start == Prefix(base)
      && (base == 16 ==> buffer[..2] == "0x")
      && |digits| == DigitCount(value, base) <= 64
      && buffer[start..start + |digits|] == digits && buffer[start + |digits|] == NUL
      && DigitsOf(digits, base) && Parse(digits, base) == value
      && (digits[0] == '0' ==> value == 0)
    ensures 2 <= base <= 36 && value == 0 ==> digits == "0"
  {
    hide Taken, Parse, DigitsOf, Reversed, DigitCount;
    start, digits := 0, "";
    if base < 2 || base > 36 {
      buffer[0] := NUL;
      return;
    }
    if base == 16 {
      buffer[0], buffer[1] := '0', 'x';
      start := 2;
    }
    var n := WriteDigits(value, buffer, start, base);
    ghost var backwards := buffer[start..start + n];
    buffer[start + n] := NUL;
    assert buffer[start..start + n] == backwards;
    ReverseInPlace(buffer, start, n);
    digits := buffer[start..start + n];
    DigitsInOrder(value, base, backwards);
  }

  lemma DigitsInOrder(value: nat, base: nat, backwards: string)
    requires base >= 2 && backwards != "" && Taken(value, base, backwards, 0)
    ensures var digits := Reversed(backwards);
      && |digits| == |backwards|
      && DigitsOf(digits, base) && Parse(digits, base) == value
      && (digits[0] == '0' ==> value == 0)
      && (value == 0 && |digits| == 1 ==> digits == "0")
  {
    if |backwards| == 1 {
      assert backwards[1..] == "";
      assert Reversed(backwards) == backwards;
    }
    ParseReversed(backwards, base);
    forall i | 0 <= i < |backwards|
      ensures Reversed(backwards)[i] == backwards[|backwards| - 1 - i]
    {
      ReversedAt(backwards, i);
    }
  }
}
