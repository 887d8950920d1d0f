/** The JavaScript string built-ins the core relies on: `String.prototype.trim`,
    `String(n)` for integers and `String.prototype.padStart`, plus a decimal reader
    used to state what a rendered number means. */
module JsText {

  /** The WhiteSpace and LineTerminator code points, the characters `trim` removes: tab,
      line feed, vertical tab, form feed, carriage return, space, no-break space, ogham
      space mark, the spaces U+2000 to U+200A, line and paragraph separators, narrow
      no-break space, medium mathematical space, ideographic space and the byte order
      mark. */
  predicate IsSpace(c: char)
  {
    ('\t' <= c <= '\r') || c == ' ' || c == '\U{00A0}' || c == '\U{1680}' ||
    ('\U{2000}' <= c <= '\U{200A}') || c == '\U{2028}' || c == '\U{2029}' ||
    c == '\U{202F}' || c == '\U{205F}' || c == '\U{3000}' || c == '\U{FEFF}'
  }

  /** Nothing but white space (or nothing at all). */
  predicate Blank(s: string)
  {
    forall i :: 0 <= i < |s| ==> IsSpace(s[i])
  }

  /** Number of white-space characters at the start of `s`. */
  function LeadingSpaces(s: string): (k: nat)
    ensures k <= |s|
  {
    if s == [] || !IsSpace(s[0]) then 0 else 1 + LeadingSpaces(s[1..])
  }

  /** `LeadingSpaces` counts the longest run of white space at the start. */
  lemma {:induction false} LeadingSpacesSpec(s: string)
    ensures var k := LeadingSpaces(s);
      (forall i :: 0 <= i < k ==> IsSpace(s[i])) && (k < |s| ==> !IsSpace(s[k]))
  {
    if s != [] && IsSpace(s[0]) {
      LeadingSpacesSpec(s[1..]);
    }
  }

  /** Number of white-space characters at the end of `s`. */
  function TrailingSpaces(s: string): (k: nat)
    ensures k <= |s|
  {
    if s == [] || !IsSpace(s[|s| - 1]) then 0 else 1 + TrailingSpaces(s[..|s| - 1])
  }

  /** `TrailingSpaces` counts the longest run of white space at the end. */
  lemma {:induction false} TrailingSpacesSpec(s: string)
    ensures var k := TrailingSpaces(s);
      (forall i :: |s| - k <= i < |s| ==> IsSpace(s[i])) && (k < |s| ==> !IsSpace(s[|s| - 1 - k]))
  {
    if s != [] && IsSpace(s[|s| - 1]) {
      TrailingSpacesSpec(s[..|s| - 1]);
    }
  }

  /** `s.trim()`: `s` without its leading and trailing white space. */
  function Trim(s: string): string
  {
    var rest := s[LeadingSpaces(s)..];
    rest[..|rest| - TrailingSpaces(rest)]
  }

  /** `trim` keeps the slice of `s` from its first non-space character on, and what it
      cuts off at the end is white space. */
  lemma TrimIsSlice(s: string)
    ensures var t := Trim(s);
      LeadingSpaces(s) + |t| <= |s| &&
      t == s[LeadingSpaces(s)..LeadingSpaces(s) + |t|] &&
      forall i :: LeadingSpaces(s) + |t| <= i < |s| ==> IsSpace(s[i])
  {
    var k := LeadingSpaces(s);
    var rest := s[k..];
    var m := |rest| - TrailingSpaces(rest);
    assert Trim(s) == rest[..m];
    assert rest[..m] == s[k..k + m];
    TrailingSpacesSpec(rest);
    forall i | k + m <= i < |s|
      ensures IsSpace(s[i])
    {
      assert s[i] == rest[i - k];
    }
  }

  /** Neither end of a non-empty trimmed string is white space. */
  lemma TrimEnds(s: string)
    ensures var t := Trim(s);
      t != "" ==> !IsSpace(t[0]) && !IsSpace(t[|t| - 1])
  {
    var k := LeadingSpaces(s);
    var rest := s[k..];
    var t := Trim(s);
    if t != "" {
      LeadingSpacesSpec(s);
      TrailingSpacesSpec(rest);
      assert t[0] == s[k];
      assert t[|t| - 1] == rest[|rest| - 1 - TrailingSpaces(rest)];
    }
  }

  /** A string that neither starts nor ends with white space is its own trim. */
  lemma TrimKeepsTrimmed(s: string)
    requires s != "" ==> !IsSpace(s[0]) && !IsSpace(s[|s| - 1])
    ensures Trim(s) == s
  {
    if s != "" {
      assert LeadingSpaces(s) == 0;
      assert s[0..] == s;
    }
  }

  /** A trimmed string is empty exactly when the input was blank. */
  lemma TrimEmptyIffBlank(s: string)
    ensures Trim(s) == "" <==> Blank(s)
  {
    var k := LeadingSpaces(s);
    LeadingSpacesSpec(s);
    TrimIsSlice(s);
    if Trim(s) != "" {
      assert k < |s| && !IsSpace(s[k]);
    }
  }

  /** Trimming twice removes nothing more. */
  lemma TrimIdempotent(s: string)
    ensures Trim(Trim(s)) == Trim(s)
  {
    var t := Trim(s);
    TrimEnds(s);
    if t != "" {
      assert LeadingSpaces(t) == 0;
      assert TrailingSpaces(t) == 0;
    } else {
      assert Trim(t) == "";
    }
  }

  predicate IsDigit(c: char)
  {
    '0' <= c <= '9'
  }

  predicate AllDigits(s: string)
  {
    forall i :: 0 <= i < |s| ==> IsDigit(s[i])
  }

  function DigitChar(d: nat): (c: char)
    requires d < 10
    ensures IsDigit(c)
  {
    "0123456789"[d]
  }

  function DigitValue(c: char): (d: nat)
    requires IsDigit(c)
    ensures d < 10
  {
    c as int - '0' as int
  }

  lemma DigitValueOfChar(d: nat)
    requires d < 10
    ensures DigitValue(DigitChar(d)) == d
  {
  }

  /** Decimal digits of a natural number, without leading zeros. */
  function Digits(n: nat): (s: string)
    ensures |s| >= 1 && AllDigits(s)
    ensures s[0] == '0' ==> n == 0
    decreases n
  {
    if n < 10 then [DigitChar(n)] else Digits(n / 10) + [DigitChar(n % 10)]
  }

  /** `String(i)` for an integer: a minus sign for negatives, then the digits. */
  function IntToString(i: int): string
  {
    if i < 0 then "-" + Digits(-i) else Digits(i)
  }

  /** The number a string of decimal digits denotes ("" denotes 0). */
  function ParseDigits(s: string): nat
    requires AllDigits(s)
  {
    if s == [] then 0 else ParseDigits(s[..|s| - 1]) * 10 + DigitValue(s[|s| - 1])
  }

  /** Reading back the digits of `n` gives `n`. */
  lemma {:induction false} ParseDigitsOfDigits(n: nat)
    ensures ParseDigits(Digits(n)) == n
    decreases n
  {
    var s := Digits(n);
    if n < 10 {
      DigitValueOfChar(n);
    } else {
      assert s[..|s| - 1] == Digits(n / 10);
      ParseDigitsOfDigits(n / 10);
      DigitValueOfChar(n % 10);
    }
  }

  /** `parts.join(sep)`: the parts in order with `sep` between neighbours. */
  function Join(parts: seq<string>, sep: string): string
  {
    if |parts| == 0 then ""
    else if |parts| == 1 then parts[0]
    else Join(parts[..|parts| - 1], sep) + sep + parts[|parts| - 1]
  }

  /** With a non-empty separator, a join is empty exactly when there is no part, or one
      part that is itself empty. */
  lemma JoinEmptyIff(parts: seq<string>, sep: string)
    requires sep != ""
    ensures Join(parts, sep) == "" <==> |parts| == 0 || (|parts| == 1 && parts[0] == "")
  {
    if |parts| >= 2 {
      var init := Join(parts[..|parts| - 1], sep);
      assert |Join(parts, sep)| == |init| + |sep| + |parts[|parts| - 1]|;
    }
  }

  /** `s.padStart(width, fill)`: `s` preceded by as many `fill` characters as it lacks. */
  function PadStart(s: string, width: nat, fill: char): (r: string)
    ensures |r| == if |s| >= width then |s| else width
    decreases width - |s|
  {
    if |s| >= width then s else PadStart([fill] + s, width, fill)
  }

  /** The padded string ends with `s` and everything before it is `fill`. */
  lemma {:induction false} PadStartSpec(s: string, width: nat, fill: char)
    ensures var r := PadStart(s, width, fill);
      r[|r| - |s|..] == s && forall i :: 0 <= i < |r| - |s| ==> r[i] == fill
    decreases width - |s|
  {
    if |s| < width {
      PadStartSpec([fill] + s, width, fill);
    }
  }

  /** A run of zeros denotes 0. */
  lemma {:induction false} ParseZeros(z: string)
    requires forall i :: 0 <= i < |z| ==> z[i] == '0'
    ensures AllDigits(z) && ParseDigits(z) == 0
  {
    if z != [] {
      ParseZeros(z[..|z| - 1]);
    }
  }

  /** Leading zeros do not change the number a digit string denotes. */
  lemma {:induction false} ParseLeadingZeros(z: string, s: string)
    requires forall i :: 0 <= i < |z| ==> z[i] == '0'
    requires AllDigits(s)
    ensures AllDigits(z + s) && ParseDigits(z + s) == ParseDigits(s)
  {
    ParseZeros(z);
    if s == [] {
      assert z + s == z;
    } else {
      var s' := s[..|s| - 1];
      assert (z + s)[..|z + s| - 1] == z + s';
      ParseLeadingZeros(z, s');
    }
  }
}
