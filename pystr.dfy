/** The few Python `str` and `int` built-ins the core relies on, on code-point
    strings (`seq<char>`): clamped slicing, `startswith`, `strip`, `int()` of an
    ASCII digit string and `str()` / zero-padded formatting of a natural. */
module PyStr {

  /** `s.startswith(prefix)` */
  predicate StartsWith(s: string, prefix: string) {
    |prefix| <= |s| && s[..|prefix|] == prefix
  }

  /** How Python normalises one bound of `s[lo:hi]` for a string of length `n`:
      a negative bound counts from the end, and both ends are clamped. */
  function SliceBound(i: int, n: nat): (r: nat)
    ensures r <= n
    ensures 0 <= i <= n ==> r == i
    ensures n < i ==> r == n
    ensures i < 0 ==> r == if i + n < 0 then 0 else i + n
  {
    if i < 0 then (if i + n < 0 then 0 else i + n)
    else if i > n then n
    else i
  }

  /** `s[lo:hi]`: never fails; an empty or inverted range gives "". */
  function Slice(s: string, lo: int, hi: int): string {
    var a, b := SliceBound(lo, |s|), SliceBound(hi, |s|);
    if a < b then s[a..b] else []
  }

  /** `s[lo:hi]` holds the characters of `s` from the normalised lower bound
      up to the normalised upper one, and nothing when they cross. */
  lemma SliceContents(s: string, lo: int, hi: int)
    ensures var a, b := SliceBound(lo, |s|), SliceBound(hi, |s|);
      |Slice(s, lo, hi)| == (if a < b then b - a else 0) &&
      forall k :: 0 <= k < |Slice(s, lo, hi)| ==> Slice(s, lo, hi)[k] == s[a + k]
  {
  }

  /** The characters for which Python's `str.isspace()` holds. */
  predicate IsSpace(c: char) {
    c == ' ' || ('\t' <= c <= '\r') || ('\U{1c}' <= c <= '\U{1f}') ||
    c == '\U{85}' || c == '\U{a0}' || c == '\U{1680}' ||
    ('\U{2000}' <= c <= '\U{200a}') || c == '\U{2028}' || c == '\U{2029}' ||
    c == '\U{202f}' || c == '\U{205f}' || c == '\U{3000}'
  }

  /** `s.lstrip()` */
  function LStrip(s: string): string {
    if s != [] && IsSpace(s[0]) then LStrip(s[1..]) else s
  }

  /** `s.rstrip()` */
  function RStrip(s: string): string {
    if s != [] && IsSpace(s[|s| - 1]) then RStrip(s[..|s| - 1]) else s
  }

  /** `lstrip` removes the longest all-whitespace prefix: what remains is a
      suffix that does not start with whitespace. */
  lemma {:induction false} LStripRemovesLeading(s: string)
    ensures var r := LStrip(s);
      |r| <= |s| && r == s[|s| - |r|..] &&
      (forall i :: 0 <= i < |s| - |r| ==> IsSpace(s[i])) &&
      (r != [] ==> !IsSpace(r[0]))
    decreases |s|
  {
    if s != [] && IsSpace(s[0]) {
      LStripRemovesLeading(s[1..]);
    }
  }

  /** `rstrip` removes the longest all-whitespace suffix: what remains is a
      prefix that does not end with whitespace. */
  lemma {:induction false} RStripRemovesTrailing(s: string)
    ensures var r := RStrip(s);
      |r| <= |s| && r == s[..|r|] &&
      (forall i :: |r| <= i < |s| ==> IsSpace(s[i])) &&
      (r != [] ==> !IsSpace(r[|r| - 1]))
    decreases |s|
  {
    if s != [] && IsSpace(s[|s| - 1]) {
      RStripRemovesTrailing(s[..|s| - 1]);
    }
  }

  /** `s.strip()` */
  function Strip(s: string): string {
    RStrip(LStrip(s))
  }

  /** `strip` keeps a contiguous piece of `s` that neither starts nor ends
      with whitespace, and everything it drops around that piece is whitespace. */
  lemma StripTrims(s: string)
    ensures exists a :: TrimmedAt(s, Strip(s), a)
    ensures Strip(s) != [] ==> !IsSpace(Strip(s)[0]) && !IsSpace(Strip(s)[|Strip(s)| - 1])
  {
    var l := LStrip(s);
    LStripRemovesLeading(s);
    RStripRemovesTrailing(l);
    var r := RStrip(l);
    var a := |s| - |l|;
    PrefixOfSuffix(s, a, |r|);
    SpacesOfSuffix(s, a, |r|);
    assert Strip(s) == r;
    assert TrimmedAt(s, Strip(s), a);
    if r != [] {
      assert r[0] == l[0];
    }
  }

  lemma PrefixOfSuffix(s: string, a: nat, k: nat)
    requires a + k <= |s|
    ensures s[a..][..k] == s[a..a + k]
  {
  }

  lemma SpacesOfSuffix(s: string, a: nat, k: nat)
    requires a + k <= |s|
    requires forall i | k <= i < |s| - a :: IsSpace(s[a..][i])
    ensures forall i | a + k <= i < |s| :: IsSpace(s[i])
  {
    forall i | a + k <= i < |s| ensures IsSpace(s[i]) {
      assert s[i] == s[a..][i - a];
    }
  }

  /** `r` is the piece of `s` at position `a`, with only whitespace around it. */
  predicate TrimmedAt(s: string, r: string, a: int) {
    0 <= a && a + |r| <= |s| && r == s[a..a + |r|] &&
    (forall i | 0 <= i < a :: IsSpace(s[i])) &&
    (forall i | a + |r| <= i < |s| :: IsSpace(s[i]))
  }

  predicate IsDigit(c: char) {
    '0' <= c <= '9'
  }

  predicate AllDigits(s: string) {
    forall i :: 0 <= i < |s| ==> IsDigit(s[i])
  }

  function DigitValue(c: char): (d: nat)
    requires IsDigit(c)
    ensures d < 10
  {
    c as int - '0' as int
  }

  function DigitChar(d: nat): (c: char)
    requires d < 10
    ensures IsDigit(c) && DigitValue(c) == d
  {
    (d + '0' as int) as char
  }

  function Pow10(n: nat): (p: nat)
    ensures p >= 1
  {
    if n == 0 then 1 else 10 * Pow10(n - 1)
  }

  /** `int(s)` for a non-empty string of ASCII digits (leading zeros allowed);
      Python raises on "", so callers test for emptiness first. */
  function DecimalValue(s: string): (v: nat)
    requires AllDigits(s)
    ensures v < Pow10(|s|)
  {
    if s == [] then 0 else DecimalValue(s[..|s| - 1]) * 10 + DigitValue(s[|s| - 1])
  }

  /** `str(n)` for a natural number: its digits with no leading zero. */
  function Digits(n: nat): (r: string)
    ensures AllDigits(r) && |r| >= 1
    ensures |r| > 1 ==> r[0] != '0'
  {
    if n < 10 then [DigitChar(n)] else Digits(n / 10) + [DigitChar(n % 10)]
  }

  function Zeros(k: nat): (r: string)
    ensures |r| == k && AllDigits(r)
    ensures forall i :: 0 <= i < k ==> r[i] == '0'
  {
    if k == 0 then [] else Zeros(k - 1) + ['0']
  }

  /** `"%0*d" % (width, n)`: `str(n)` left-padded with zeros to `width`. */
  function Pad(n: nat, width: nat): (r: string)
    ensures AllDigits(r)
  {
    var d := Digits(n);
    (if |d| < width then Zeros(width - |d|) else []) + d
  }

  /** `int(str(n)) == n` */
  lemma {:induction false} DigitsRoundTrip(n: nat)
    ensures DecimalValue(Digits(n)) == n
  {
    var r := Digits(n);
    if n >= 10 {
      DigitsRoundTrip(n / 10);
      assert r[..|r| - 1] == Digits(n / 10);
    }
  }

  /** `str(n)` has at most `w` digits when `n < 10^w`. */
  lemma {:induction false} DigitsLength(n: nat, w: nat)
    requires n < Pow10(w)
    ensures |Digits(n)| <= w || (w == 0 && |Digits(n)| == 1)
  {
    if n >= 10 {
      assert w >= 2;
      DigitsLength(n / 10, w - 1);
    }
  }

  /** Place value: the digits of `a + b` read as `a` shifted past `b`. */
  lemma {:induction false} DecimalValueConcat(a: string, b: string)
    requires AllDigits(a) && AllDigits(b)
    ensures DecimalValue(a + b) == DecimalValue(a) * Pow10(|b|) + DecimalValue(b)
  {
    if b == [] {
      assert a + b == a;
    } else {
      var b', c := b[..|b| - 1], b[|b| - 1];
      DecimalValueConcat(a, b');
      assert a + b == (a + b') + [c] && b == b' + [c];
      DecimalValueSnoc(a + b', c);
      DecimalValueSnoc(b', c);
      ShiftDigit(DecimalValue(a), Pow10(|b'|), DecimalValue(b'), DigitValue(c), DecimalValue(a + b), Pow10(|b|));
    }
  }

  /** Appending a digit multiplies the value by ten and adds the digit. */
  lemma DecimalValueSnoc(s: string, c: char)
    requires AllDigits(s) && IsDigit(c)
    ensures AllDigits(s + [c])
    ensures DecimalValue(s + [c]) == DecimalValue(s) * 10 + DigitValue(c)
  {
    assert (s + [c])[..|s|] == s;
  }

  lemma ShiftDigit(x: int, p: int, y: int, d: int, v: int, q: int)
    requires v == (x * p + y) * 10 + d && q == 10 * p
    ensures v == x * q + (y * 10 + d)
  {
  }

  lemma {:induction false} ZerosValue(k: nat)
    ensures DecimalValue(Zeros(k)) == 0
  {
    if k > 0 {
      assert Zeros(k)[..k - 1] == Zeros(k - 1);
      ZerosValue(k - 1);
    }
  }

  /** Zero padding round-trips: it has exactly `width` digits and `int()` of it
      gives `n` back, whenever `n` fits in `width` digits. */
  lemma PadRoundTrip(n: nat, width: nat)
    requires 1 <= width && n < Pow10(width)
    ensures |Pad(n, width)| == width
    ensures DecimalValue(Pad(n, width)) == n
  {
    var d := Digits(n);
    DigitsLength(n, width);
    DigitsRoundTrip(n);
    if |d| < width {
      ZerosThenDigits(width - |d|, d);
      assert Pad(n, width) == Zeros(width - |d|) + d;
    } else {
      assert Pad(n, width) == d;
    }
  }

  /** Leading zeros do not change the value. */
  lemma ZerosThenDigits(k: nat, d: string)
    requires AllDigits(d)
    ensures AllDigits(Zeros(k) + d) && |Zeros(k) + d| == k + |d|
    ensures DecimalValue(Zeros(k) + d) == DecimalValue(d)
  {
    DecimalValueConcat(Zeros(k), d);
    ZerosValue(k);
  }
}
