/** Text handling the service relies on: trimming, decimal numbers and verification codes. */
module Text {
  import opened Wrappers

  // ---- strings.TrimSpace ----

  /** The characters Unicode calls white space. */
  predicate IsSpace(c: char) {
    || '\t' <= c <= '\r'
    || c in {' ', '\U{85}', '\U{A0}', '\U{1680}', '\U{2028}', '\U{2029}', '\U{202F}', '\U{205F}', '\U{3000}'}
    || '\U{2000}' <= c <= '\U{200A}'
  }

  predicate Trimmed(s: string) {
    s == [] || (!IsSpace(s[0]) && !IsSpace(s[|s| - 1]))
  }

  function TrimLeft(s: string): (r: string)
    ensures r == [] || !IsSpace(r[0])
    ensures s == [] || !IsSpace(s[0]) ==> r == s
  {
    if s != [] && IsSpace(s[0]) then TrimLeft(s[1..]) else s
  }

  function TrimRight(s: string): (r: string)
    ensures r == [] || !IsSpace(r[|r| - 1])
    ensures r <= s
    ensures s == [] || !IsSpace(s[|s| - 1]) ==> r == s
  {
    if s != [] && IsSpace(s[|s| - 1]) then TrimRight(s[..|s| - 1]) else s
  }

  function TrimSpace(s: string): (r: string)
    ensures Trimmed(r)
    ensures Trimmed(s) ==> r == s
  {
    TrimRight(TrimLeft(s))
  }

  predicate AllSpace(s: string) {
    forall i :: 0 <= i < |s| ==> IsSpace(s[i])
  }

  lemma {:induction false} TrimLeftStrips(s: string) returns (left: string)
    ensures s == left + TrimLeft(s) && AllSpace(left)
  {
    if s != [] && IsSpace(s[0]) {
      left := TrimLeftStrips(s[1..]);
      left := [s[0]] + left;
    } else {
      left := [];
    }
  }

  lemma {:induction false} TrimRightStrips(s: string) returns (right: string)
    ensures s == TrimRight(s) + right && AllSpace(right)
  {
    if s != [] && IsSpace(s[|s| - 1]) {
      right := TrimRightStrips(s[..|s| - 1]);
      right := right + [s[|s| - 1]];
    } else {
      right := [];
    }
  }

  /** Trimming takes white space off both ends, and nothing else. */
  lemma TrimSpaceStrips(s: string) returns (left: string, right: string)
    ensures s == left + TrimSpace(s) + right && AllSpace(left) && AllSpace(right) && Trimmed(TrimSpace(s))
  {
    left := TrimLeftStrips(s);
    right := TrimRightStrips(TrimLeft(s));
  }

  /** `strings.TrimSpace(s) == ""`. */
  predicate Blank(s: string) {
    TrimSpace(s) == ""
  }

  // ---- decimal numbers ----

  predicate IsDigit(c: char) {
    '0' <= c <= '9'
  }

  function DigitValue(c: char): (d: nat)
    requires IsDigit(c)
    ensures d < 10
  {
    c as nat - '0' as nat
  }

  function Digit(d: nat): (c: char)
    requires d < 10
    ensures IsDigit(c) && DigitValue(c) == d
  {
    '0' + d as char
  }

  /** The number a run of digits denotes. */
  function Value(s: string): nat
    requires forall c :: c in s ==> IsDigit(c)
  {
    if s == [] then 0 else 10 * Value(s[..|s| - 1]) + DigitValue(s[|s| - 1])
  }

  /** `strconv.Itoa` on a natural number. */
  function Itoa(n: nat): (s: string)
    ensures s != [] && (forall c :: c in s ==> IsDigit(c)) && Value(s) == n
  {
    if n < 10 then
      var s := [Digit(n)];
      assert s[..0] == [];
      s
    else
      var high := Itoa(n / 10);
      var s := high + [Digit(n % 10)];
      assert s[..|s| - 1] == high;
      s
  }

  const INT_MAX: int := 0x7FFF_FFFF_FFFF_FFFF

  /** `strconv.Atoi`: an optional sign, then digits, within the 64-bit range. */
  function Atoi(s: string): Option<int> {
    var signed := s != [] && s[0] in {'+', '-'};
    var digits := if signed then s[1..] else s;
    if digits == [] || exists c :: c in digits && !IsDigit(c) then None
    else
      var n := (if signed && s[0] == '-' then -1 else 1) * Value(digits);
      if -INT_MAX - 1 <= n <= INT_MAX then Some(n) else None
  }

  /** Reading back a number that was written in decimal. */
  lemma AtoiInvertsItoa(n: nat)
    requires n <= INT_MAX
    ensures Atoi(Itoa(n)) == Some(n)
  {
    assert IsDigit(Itoa(n)[0]);
  }

  /** A sign is read, and anything that is no number is refused. */
  lemma AtoiReadsSigns(n: int, s: string)
    requires 0 <= n <= INT_MAX
    ensures Atoi("-" + Itoa(n)) == Some(-n) && Atoi("+" + Itoa(n)) == Some(n)
    ensures s == "" || (exists i :: 0 < i < |s| && !IsDigit(s[i])) ==> Atoi(s).None?
  {
    assert ("-" + Itoa(n))[1..] == Itoa(n) && ("+" + Itoa(n))[1..] == Itoa(n);
    if i :| 0 < i < |s| && !IsDigit(s[i]) {
      assert s[1..][i - 1] == s[i] && s[i] in s[1..];
    }
  }

  // ---- verification codes ----

  /** The length of `s` in bytes of UTF-8, which is what Go's `len` counts. */
  function ByteLength(s: string): nat {
    if s == [] then 0
    else
      var c := s[0] as int;
      (if c < 0x80 then 1 else if c < 0x800 then 2 else if c < 0x1_0000 then 3 else 4) + ByteLength(s[1..])
  }

  predicate Fits(n: nat, width: nat) {
    if width == 0 then n == 0 else Fits(n / 10, width - 1)
  }

  /**
    `fmt.Sprintf("%0*d", width, n)` for a number that fits. Padding keeps the number, so distinct
    numbers get distinct codes.
   */
  function ZeroPadded(n: nat, width: nat): (s: string)
    requires Fits(n, width)
    ensures |s| == width && (forall c :: c in s ==> IsDigit(c)) && Value(s) == n
  {
    if width == 0 then ""
    else
      var high := ZeroPadded(n / 10, width - 1);
      var s := high + [Digit(n % 10)];
      assert s[..|s| - 1] == high;
      s
  }

  lemma SixDigitsFit(n: nat)
    requires n < 1_000_000
    ensures Fits(n, 6)
  {
    assert Fits(n / 100_000, 1);
    assert n / 10_000 / 10 == n / 100_000 && Fits(n / 10_000, 2);
    assert n / 1_000 / 10 == n / 10_000 && Fits(n / 1_000, 3);
    assert n / 100 / 10 == n / 1_000 && Fits(n / 100, 4);
    assert n / 10 / 10 == n / 100 && Fits(n / 10, 5);
  }

  newtype byte = b: int | 0 <= b < 256

  lemma {:induction false} DigitsAreBytes(s: string)
    requires forall c :: c in s ==> IsDigit(c)
    ensures ByteLength(s) == |s|
  {
    if s != [] {
      assert IsDigit(s[0]);
      DigitsAreBytes(s[1..]);
    }
  }

  /**
    A verification code. `fixedCode` is the trimmed test setting, present only in the local
    environment; `entropy` is the outcome of reading three random bytes.
   */
  function GenerateCode(fixedCode: Option<string>, entropy: Option<seq<byte>>): (code: Option<string>)
    requires entropy.Some? ==> |entropy.value| == 3
    ensures code.Some? ==> Trimmed(code.value) && !Blank(code.value) && ByteLength(code.value) == 6
    ensures code.None? ==> entropy.None?
  {
    if fixedCode.Some? && ByteLength(TrimSpace(fixedCode.value)) == 6 then
      Some(TrimSpace(fixedCode.value))
    else if entropy.None? then None
    else
      var b := entropy.value;
      var value := (b[0] as nat * 0x1_0000 + b[1] as nat * 0x100 + b[2] as nat) % 1_000_000;
      SixDigitsFit(value);
      var s := ZeroPadded(value, 6);
      assert IsDigit(s[0]) && IsDigit(s[5]);
      DigitsAreBytes(s);
      Some(s)
  }

  /**
    Without a setting of six bytes, the code is the three random bytes read as one number, modulo a
    million, in six digits.
   */
  lemma CodeFollowsEntropy(fixedCode: Option<string>, high: byte, middle: byte, low: byte)
    requires fixedCode.Some? ==> ByteLength(TrimSpace(fixedCode.value)) != 6
    ensures var code := GenerateCode(fixedCode, Some([high, middle, low]));
            && code.Some? && |code.value| == 6 && (forall c :: c in code.value ==> IsDigit(c))
            && Value(code.value) == (high as int * 65536 + middle as int * 256 + low as int) % 1_000_000
  {
    var value := (high as nat * 65536 + middle as nat * 256 + low as nat) % 1_000_000;
    SixDigitsFit(value);
    assert GenerateCode(fixedCode, Some([high, middle, low])) == Some(ZeroPadded(value, 6));
  }

  lemma ThreeBytes(n: nat)
    requires n < 1_000_000
    ensures n / 65536 < 256 && n / 65536 * 65536 + n / 256 % 256 * 256 + n % 256 == n
  {
    assert n / 65536 == n / 256 / 256;
  }

  /** Every code of six digits can be drawn. */
  lemma EveryCodeCanBeDrawn(n: nat) returns (entropy: seq<byte>)
    requires n < 1_000_000
    ensures |entropy| == 3 && GenerateCode(None, Some(entropy)).Some?
    ensures var code := GenerateCode(None, Some(entropy)).value;
            (forall c :: c in code ==> IsDigit(c)) && Value(code) == n
  {
    hide ZeroPadded, GenerateCode;
    ThreeBytes(n);
    entropy := [(n / 65536) as byte, (n / 256 % 256) as byte, (n % 256) as byte];
    CodeFollowsEntropy(None, entropy[0], entropy[1], entropy[2]);
  }

  /** The setting counts when it is six bytes long without the white space around it, and then always. */
  lemma FixedCodeCounts(setting: string, entropy: Option<seq<byte>>)
    requires ByteLength(TrimSpace(setting)) == 6 && (entropy.Some? ==> |entropy.value| == 3)
    ensures GenerateCode(Some(setting), entropy) == Some(TrimSpace(setting))
  {
  }
}
