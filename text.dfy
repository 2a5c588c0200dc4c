/**
 * String helpers the components rely on: JavaScript's `String.prototype.trim`
 * and the decimal rendering of a non-negative integer in a template string.
 */
module Text {

  /** The characters `trim` removes: white space and line terminators. */
  predicate IsWhitespace(c: char) {
    || c == ' ' || c == '\t' || c == '\n' || c == '\r'
    || c == '\U{B}' || c == '\U{C}' || c == '\U{A0}' || c == '\U{1680}'
    || ('\U{2000}' <= c <= '\U{200A}')
    || c == '\U{2028}' || c == '\U{2029}' || c == '\U{202F}' || c == '\U{205F}'
    || c == '\U{3000}' || c == '\U{FEFF}'
  }

  /** `s` with its leading white space removed. */
  function TrimStart(s: string): string {
    if s != [] && IsWhitespace(s[0]) then TrimStart(s[1..]) else s
  }

  /** `s` with its trailing white space removed. */
  function TrimEnd(s: string): string {
    if s != [] && IsWhitespace(s[|s| - 1]) then TrimEnd(s[..|s| - 1]) else s
  }

  /** TrimStart drops a run of white space from the front and stops at the first other character. */
  lemma {:induction false} TrimStartSuffix(s: string)
    ensures |TrimStart(s)| <= |s| && TrimStart(s) == s[|s| - |TrimStart(s)|..]
    ensures forall k :: 0 <= k < |s| - |TrimStart(s)| ==> IsWhitespace(s[k])
    ensures TrimStart(s) != [] ==> !IsWhitespace(TrimStart(s)[0])
  {
    if s != [] && IsWhitespace(s[0]) {
      var t := s[1..];
      TrimStartSuffix(t);
      assert TrimStart(s) == TrimStart(t);
      forall k | 0 <= k < |s| - |TrimStart(s)| ensures IsWhitespace(s[k]) {
        if k > 0 {
          assert s[k] == t[k - 1];
        }
      }
      assert s[|s| - |TrimStart(s)|..] == t[|t| - |TrimStart(t)|..];
    }
  }

  /** TrimEnd drops a run of white space from the back and stops at the last other character. */
  lemma {:induction false} TrimEndPrefix(s: string)
    ensures |TrimEnd(s)| <= |s| && TrimEnd(s) == s[..|TrimEnd(s)|]
    ensures forall k :: |TrimEnd(s)| <= k < |s| ==> IsWhitespace(s[k])
    ensures TrimEnd(s) != [] ==> !IsWhitespace(TrimEnd(s)[|TrimEnd(s)| - 1])
  {
    if s != [] && IsWhitespace(s[|s| - 1]) {
      var t := s[..|s| - 1];
      TrimEndPrefix(t);
      assert TrimEnd(s) == TrimEnd(t);
      forall k | |TrimEnd(s)| <= k < |s| ensures IsWhitespace(s[k]) {
        if k < |t| {
          assert s[k] == t[k];
        }
      }
      assert s[..|TrimEnd(s)|] == t[..|TrimEnd(t)|];
    }
  }

  /** `s.trim()`: never longer than `s`. */
  function Trim(s: string): (r: string)
    ensures |r| <= |s|
  {
    TrimStartSuffix(s);
    TrimEndPrefix(TrimStart(s));
    TrimEnd(TrimStart(s))
  }

  /** Where the trimmed text starts in `s`: the length of the leading white space. */
  function TrimOffset(s: string): nat {
    TrimStartSuffix(s);
    |s| - |TrimStart(s)|
  }

  /** Trimming keeps one contiguous slice of `s`, starting after the leading white space. */
  lemma TrimIsSlice(s: string)
    ensures TrimOffset(s) + |Trim(s)| <= |s|
    ensures Trim(s) == s[TrimOffset(s)..TrimOffset(s) + |Trim(s)|]
  {
    var a := TrimStart(s);
    TrimStartSuffix(s);
    TrimEndPrefix(a);
    assert Trim(s) == a[..|Trim(s)|];
  }

  /** Everything trimming removes is white space. */
  lemma TrimRemovesOnlyWhitespace(s: string)
    ensures forall k :: 0 <= k < TrimOffset(s) ==> IsWhitespace(s[k])
    ensures forall k :: TrimOffset(s) + |Trim(s)| <= k < |s| ==> IsWhitespace(s[k])
  {
    var a := TrimStart(s);
    var i := TrimOffset(s);
    TrimStartSuffix(s);
    TrimEndPrefix(a);
    forall k | i + |Trim(s)| <= k < |s| ensures IsWhitespace(s[k]) {
      assert s[k] == a[k - i];
    }
  }

  /** The trimmed text neither starts nor ends with white space. */
  lemma TrimEndsNotWhitespace(s: string)
    ensures Trim(s) != [] ==> !IsWhitespace(Trim(s)[0]) && !IsWhitespace(Trim(s)[|Trim(s)| - 1])
  {
    var a := TrimStart(s);
    TrimStartSuffix(s);
    TrimEndPrefix(a);
    if Trim(s) != [] {
      assert Trim(s)[0] == a[0];
    }
  }

  /** A string trims to nothing exactly when it is all white space. */
  lemma {:induction false} TrimEmptyIff(s: string)
    ensures Trim(s) == [] <==> forall k :: 0 <= k < |s| ==> IsWhitespace(s[k])
  {
    var a := TrimStart(s);
    TrimStartSuffix(s);
    TrimEndPrefix(a);
    if a != [] {
      assert a[0] == s[|s| - |a|];
      assert !IsWhitespace(a[0]);
    }
  }

  /** Trimming twice is trimming once. */
  lemma {:induction false} TrimIdempotent(s: string)
    ensures Trim(Trim(s)) == Trim(s)
  {
    var r := Trim(s);
    TrimEndsNotWhitespace(s);
    if r != [] {
      assert TrimStart(r) == r;
      assert TrimEnd(r) == r;
    } else {
      assert TrimStart(r) == [];
    }
  }

  // ---------------------------------------------------------------------
  // Decimal numerals
  // ---------------------------------------------------------------------

  predicate IsDigit(c: char) { '0' <= c <= '9' }

  function DigitChar(d: nat): (c: char)
    requires d < 10
    ensures IsDigit(c)
  {
    ['0', '1', '2', '3', '4', '5', '6', '7', '8', '9'][d]
  }

  function DigitValue(c: char): (d: nat)
    requires IsDigit(c)
    ensures d < 10
  {
    (c as int - '0' as int) as nat
  }

  /** How `${n}` renders a non-negative integer: its decimal digits, no leading zero. */
  function NatToDecimal(n: nat): (s: string)
    ensures |s| >= 1
    ensures forall k :: 0 <= k < |s| ==> IsDigit(s[k])
    ensures s[0] == '0' ==> n == 0
  {
    if n < 10 then [DigitChar(n)] else NatToDecimal(n / 10) + [DigitChar(n % 10)]
  }

  /** The number a string of digits denotes. */
  function ParseDecimal(s: string): nat
    requires forall k :: 0 <= k < |s| ==> IsDigit(s[k])
  {
    if s == [] then 0 else 10 * ParseDecimal(s[..|s| - 1]) + DigitValue(s[|s| - 1])
  }

  /** Reading back the rendered digits gives the number. */
  lemma {:induction false} DecimalRoundTrip(n: nat)
    ensures ParseDecimal(NatToDecimal(n)) == n
  {
    var s := NatToDecimal(n);
    if n < 10 {
      assert DigitValue(DigitChar(n)) == n;
    } else {
      assert s[..|s| - 1] == NatToDecimal(n / 10);
      assert DigitValue(DigitChar(n % 10)) == n % 10;
      DecimalRoundTrip(n / 10);
    }
  }
}
