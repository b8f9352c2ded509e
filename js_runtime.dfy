/** The pieces of JavaScript runtime semantics the service relies on:
    32-bit integer conversion (what `<<` and `&` do to their operands),
    strings as UTF-16 code units (what `length` and `charCodeAt` see),
    `Number.prototype.toString(radix)` on non-negative integers and
    `String.prototype.padStart`. */
module JsRuntime {

  const TWO31: int := 0x8000_0000
  const TWO32: int := 0x1_0000_0000

  /** ECMAScript ToInt32: wrap an integer into [-2^31, 2^31). */
  function ToInt32(x: int): (r: int)
    ensures -TWO31 <= r < TWO31
    ensures r == x - TWO32 * ((x + TWO31) / TWO32)
  {
    (x + TWO31) % TWO32 - TWO31
  }

  predicate IsInt32(x: int) {
    -TWO31 <= x < TWO31
  }

  /** ToInt32 only depends on its argument modulo 2^32. */
  lemma ToInt32Congruent(a: int, b: int, k: int)
    requires a == b + k * TWO32
    ensures ToInt32(a) == ToInt32(b)
  {
    var q, m := (b + TWO31) / TWO32, (b + TWO31) % TWO32;
    assert a + TWO31 == (q + k) * TWO32 + m;
    assert (a + TWO31) % TWO32 == m;
  }

  /** ToInt32 is the identity on 32-bit values. */
  lemma ToInt32Identity(x: int)
    requires IsInt32(x)
    ensures ToInt32(x) == x
  {
  }

  // ---------------------------------------------------------------------
  // Strings as UTF-16 code units

  /** The UTF-16 code units of one Unicode scalar value. */
  function CodeUnits(c: char): (r: seq<int>)
    ensures 1 <= |r| <= 2
    ensures |r| == 1 <==> (c as int) < 0x1_0000
    ensures forall i :: 0 <= i < |r| ==> 0 <= r[i] < 0x1_0000
  {
    var v := c as int;
    if v < 0x1_0000 then [v]
    else [0xD800 + (v - 0x1_0000) / 0x400, 0xDC00 + (v - 0x1_0000) % 0x400]
  }

  /** The code units a JavaScript string holds: `s.length` is `|Utf16(s)|`
      and `s.charCodeAt(i)` is `Utf16(s)[i]`. */
  function Utf16(s: string): (r: seq<int>)
    ensures |r| >= |s|
    ensures forall i :: 0 <= i < |r| ==> 0 <= r[i] < 0x1_0000
  {
    if s == [] then [] else CodeUnits(s[0]) + Utf16(s[1..])
  }

  /** Every character lies in the Basic Multilingual Plane. */
  predicate IsBmp(s: string) {
    forall i :: 0 <= i < |s| ==> (s[i] as int) < 0x1_0000
  }

  lemma BmpAppend(a: string, b: string)
    requires IsBmp(a) && IsBmp(b)
    ensures IsBmp(a + b)
  {
    forall i | 0 <= i < |a + b| ensures ((a + b)[i] as int) < 0x1_0000 {
      if i < |a| { assert (a + b)[i] == a[i]; } else { assert (a + b)[i] == b[i - |a|]; }
    }
  }

  /** A BMP string has one code unit per character, equal to the character. */
  lemma {:induction false} Utf16OfBmp(s: string)
    requires IsBmp(s)
    ensures |Utf16(s)| == |s|
    ensures forall i :: 0 <= i < |s| ==> Utf16(s)[i] == s[i] as int
  {
    if s != [] {
      assert IsBmp(s[1..]) by {
        forall i | 0 <= i < |s[1..]| ensures (s[1..][i] as int) < 0x1_0000 {
          assert s[1..][i] == s[i + 1];
        }
      }
      Utf16OfBmp(s[1..]);
    }
  }

  lemma {:induction false} Utf16Append(a: string, b: string)
    ensures Utf16(a + b) == Utf16(a) + Utf16(b)
  {
    if a == [] {
      assert a + b == b;
    } else {
      assert (a + b)[0] == a[0];
      assert (a + b)[1..] == a[1..] + b;
      Utf16Append(a[1..], b);
    }
  }

  // ---------------------------------------------------------------------
  // Number.prototype.toString(radix) on non-negative integers

  type Radix = r: int | 2 <= r <= 36 witness 10

  /** The digit character of value `d`: `0`-`9` then `a`-`z`. */
  function DigitChar(d: nat): (c: char)
    requires d < 36
    ensures IsDigitChar(c, 36)
  {
    if d < 10 then (48 + d) as char else (97 + d - 10) as char
  }

  /** `c` is a lower-case digit of value less than `radix`. */
  predicate IsDigitChar(c: char, radix: Radix) {
    ('0' <= c <= '9' && (c as int) - 48 < radix) ||
    ('a' <= c <= 'z' && (c as int) - 97 + 10 < radix)
  }

  function DigitValue(c: char): (d: nat)
    requires IsDigitChar(c, 36)
    ensures d < 36
  {
    if '0' <= c <= '9' then (c as int) - 48 else (c as int) - 97 + 10
  }

  predicate AllDigits(s: string, radix: Radix) {
    forall i :: 0 <= i < |s| ==> IsDigitChar(s[i], radix)
  }

  /** `n.toString(radix)` for a non-negative integer `n`: lower-case digits,
      no sign, no leading zero except for `"0"` itself. */
  function ToRadix(n: nat, radix: Radix): (s: string)
    ensures |s| >= 1
    ensures AllDigits(s, radix)
    ensures IsBmp(s)
    ensures |s| > 1 ==> s[0] != '0'
    decreases n
  {
    if n < radix then [DigitChar(n)]
    else
      DivMod(n, radix);
      var front := ToRadix(n / radix, radix);
      var s := front + [DigitChar(n % radix)];
      assert forall i :: 0 <= i < |front| ==> s[i] == front[i];
      s
  }

  /** Reads a digit string back as a number (leading zeros allowed). */
  /** Euclidean division facts for a radix, stated once. */
  lemma DivMod(n: nat, radix: Radix)
    ensures n == (n / radix) * radix + n % radix
    ensures 0 <= n % radix < radix
    ensures n >= radix ==> 1 <= n / radix < n
  {
  }

  function FromRadix(s: string, radix: Radix): nat
    requires AllDigits(s, radix)
  {
    if s == [] then 0
    else FromRadix(s[..|s| - 1], radix) * radix + DigitValue(s[|s| - 1])
  }

  lemma DigitRoundTrip(d: nat)
    requires d < 36
    ensures DigitValue(DigitChar(d)) == d
  {
  }

  /** Reading back what `ToRadix` wrote gives the number again. */
  lemma {:induction false} RadixRoundTrip(n: nat, radix: Radix)
    ensures FromRadix(ToRadix(n, radix), radix) == n
  {
    DivMod(n, radix);
    DigitRoundTrip(n % radix);
    if n >= radix {
      var front := ToRadix(n / radix, radix);
      var s := front + [DigitChar(n % radix)];
      assert s[..|s| - 1] == front;
      RadixRoundTrip(n / radix, radix);
    }
  }

  /** Leading `'0'` characters do not change the value read back. */
  lemma {:induction false} FromRadixLeadingZeros(z: nat, s: string, radix: Radix)
    requires AllDigits(s, radix)
    ensures AllDigits(Repeat('0', z) + s, radix)
    ensures FromRadix(Repeat('0', z) + s, radix) == FromRadix(s, radix)
    decreases |s|
  {
    var t := Repeat('0', z) + s;
    assert AllDigits(t, radix) by {
      forall i | 0 <= i < |t| ensures IsDigitChar(t[i], radix) {
        if i < z { assert t[i] == '0'; } else { assert t[i] == s[i - z]; }
      }
    }
    if s == [] {
      assert t == Repeat('0', z);
      FromRadixZeros(z, radix);
    } else {
      assert t[..|t| - 1] == Repeat('0', z) + s[..|s| - 1];
      assert t[|t| - 1] == s[|s| - 1];
      FromRadixLeadingZeros(z, s[..|s| - 1], radix);
    }
  }

  lemma {:induction false} FromRadixZeros(z: nat, radix: Radix)
    ensures AllDigits(Repeat('0', z), radix)
    ensures FromRadix(Repeat('0', z), radix) == 0
  {
    if z > 0 {
      var t := Repeat('0', z);
      assert t[..z - 1] == Repeat('0', z - 1);
      FromRadixZeros(z - 1, radix);
    }
  }

  function Pow(b: nat, k: nat): (p: nat)
    ensures p >= 1 || b == 0
  {
    if k == 0 then 1 else b * Pow(b, k - 1)
  }

  lemma DivBelow(n: nat, r: Radix, p: nat)
    requires n < r * p
    ensures n / r < p
  {
  }

  /** A number below `radix^k` is written with at most `k` digits. */
  lemma {:induction false} ToRadixLength(n: nat, radix: Radix, k: nat)
    requires 1 <= k
    requires n < Pow(radix, k)
    ensures |ToRadix(n, radix)| <= k
    decreases k
  {
    if n >= radix {
      var p := Pow(radix, k - 1);
      assert Pow(radix, k) == radix * p;
      DivBelow(n, radix, p);
      DivMod(n, radix);
      ToRadixLength(n / radix, radix, k - 1);
    }
  }

  // ---------------------------------------------------------------------
  // String.prototype.padStart

  function Repeat(c: char, n: nat): (s: string)
    ensures |s| == n
    ensures forall i :: 0 <= i < n ==> s[i] == c
  {
    if n == 0 then [] else Repeat(c, n - 1) + [c]
  }

  /** `s.padStart(width, c)`: prefix copies of `c` until the length is at
      least `width`; a string already that long is returned as it is.
      Lengths here count characters, whereas JavaScript counts UTF-16 code
      units; the two agree on BMP strings such as the decimal digits the
      service pads, and differ for characters outside the BMP. */
  function PadStart(s: string, width: nat, c: char): (r: string)
    ensures |r| == if |s| >= width then |s| else width
    ensures r == Repeat(c, |r| - |s|) + s
  {
    if |s| >= width then
      assert s == Repeat(c, 0) + s;
      s
    else Repeat(c, width - |s|) + s
  }

  /** Padding a BMP string with a BMP character keeps it in the BMP. */
  lemma PadStartBmp(s: string, width: nat, c: char)
    requires IsBmp(s) && (c as int) < 0x1_0000
    ensures IsBmp(PadStart(s, width, c))
  {
    var r := PadStart(s, width, c);
    var z := |r| - |s|;
    assert IsBmp(Repeat(c, z));
    BmpAppend(Repeat(c, z), s);
  }
}
