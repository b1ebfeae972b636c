/** The pieces of the .NET base library that the logging library leans on:
    fixed-width integers, invariant lower-casing, `char.IsWhiteSpace`,
    `String.IndexOfAny`, `Int32.Parse`/`Int64.Parse` and the `System.IO.Path`
    members, which stand here as parameters of a platform. */
module Primitives {
  import opened Wrappers

  type Int32 = x: int | -0x8000_0000 <= x < 0x8000_0000
  type Int64 = x: int | -0x8000_0000_0000_0000 <= x < 0x8000_0000_0000_0000

  const Int32Min: int := -0x8000_0000
  const Int32Max: int := 0x7FFF_FFFF
  const Int64Min: int := -0x8000_0000_0000_0000
  const Int64Max: int := 0x7FFF_FFFF_FFFF_FFFF

  // ---------------------------------------------------------------------------
  // ToLowerInvariant, restricted to the ASCII letters

  function LowerChar(c: char): char {
    if 'A' <= c <= 'Z' then (c as int + 32) as char else c
  }

  function Lower(s: string): (r: string)
    ensures |r| == |s|
    ensures forall i :: 0 <= i < |s| ==> r[i] == LowerChar(s[i])
  {
    seq(|s|, i requires 0 <= i < |s| => LowerChar(s[i]))
  }

  lemma LowerIdempotent(s: string)
    ensures Lower(Lower(s)) == Lower(s)
  {
  }

  lemma LowerConcat(a: string, b: string)
    ensures Lower(a + b) == Lower(a) + Lower(b)
  {
  }

  // ---------------------------------------------------------------------------
  // char.IsWhiteSpace, String.IsNullOrWhiteSpace, String.IsNullOrEmpty

  /** The Unicode separators (categories Zs, Zl, Zp) and the controls
      U+0009..U+000D and U+0085, which is what `char.IsWhiteSpace` accepts. */
  predicate IsWhiteSpace(c: char) {
    || ('\t' <= c <= '\r')
    || c == ' '
    || c == '\U{85}'
    || c == '\U{A0}'
    || c == '\U{1680}'
    || ('\U{2000}' <= c <= '\U{200A}')
    || c == '\U{2028}'
    || c == '\U{2029}'
    || c == '\U{202F}'
    || c == '\U{205F}'
    || c == '\U{3000}'
  }

  predicate IsNullOrWhiteSpace(s: Option<string>) {
    s.None? || forall i :: 0 <= i < |s.value| ==> IsWhiteSpace(s.value[i])
  }

  predicate IsNullOrEmpty(s: Option<string>) {
    s.None? || s.value == ""
  }

  // ---------------------------------------------------------------------------
  // String.IndexOfAny: the index of the first character that is one of `chars`

  function IndexOfAny(s: string, chars: seq<char>): (r: Option<nat>)
    ensures r.Some? ==> r.value < |s| && s[r.value] in chars
    ensures r.Some? ==> forall j :: 0 <= j < r.value ==> s[j] !in chars
    ensures r.None? <==> forall j :: 0 <= j < |s| ==> s[j] !in chars
    decreases |s|
  {
    if s == [] then None
    else if s[0] in chars then Some(0)
    else
      match IndexOfAny(s[1..], chars)
      case None => None
      case Some(k) => Some(k + 1)
  }

  // ---------------------------------------------------------------------------
  // Decimal text: Int32.Parse and Int64.Parse with NumberStyles.Integer

  predicate IsDigit(c: char) {
    '0' <= c <= '9'
  }

  predicate AllDigits(s: string) {
    forall i :: 0 <= i < |s| ==> IsDigit(s[i])
  }

  function DigitValue(c: char): nat
    requires IsDigit(c)
  {
    c as int - '0' as int
  }

  function DigitChar(d: nat): (c: char)
    requires d < 10
    ensures IsDigit(c) && DigitValue(c) == d
  {
    ('0' as int + d) as char
  }

  /** The value of a string of decimal digits, most significant first. */
  function DigitsValue(s: string): nat
    requires AllDigits(s)
    decreases |s|
  {
    if s == [] then 0 else DigitsValue(s[..|s| - 1]) * 10 + DigitValue(s[|s| - 1])
  }

  /** Shortest decimal text of a natural number. */
  function FormatNat(n: nat): string
    decreases n
  {
    if n < 10 then [DigitChar(n)] else FormatNat(n / 10) + [DigitChar(n % 10)]
  }

  lemma {:induction false} FormatNatDigits(n: nat)
    ensures |FormatNat(n)| > 0 && AllDigits(FormatNat(n))
    ensures DigitsValue(FormatNat(n)) == n
    decreases n
  {
    if n >= 10 {
      FormatNatDigits(n / 10);
      var s := FormatNat(n);
      assert s[..|s| - 1] == FormatNat(n / 10);
    }
  }

  /** Decimal text of an integer, with a leading '-' when negative. */
  function FormatInteger(n: int): string {
    if n < 0 then "-" + FormatNat(-n) else FormatNat(n)
  }

  /** The white space that NumberStyles.AllowLeadingWhite and AllowTrailingWhite
      admit: U+0009..U+000D and U+0020. */
  predicate IsNumberWhite(c: char) {
    ('\t' <= c <= '\r') || c == ' '
  }

  function TrimStart(s: string): string
    decreases |s|
  {
    if |s| > 0 && IsNumberWhite(s[0]) then TrimStart(s[1..]) else s
  }

  function TrimEnd(s: string): string
    decreases |s|
  {
    if |s| > 0 && IsNumberWhite(s[|s| - 1]) then TrimEnd(s[..|s| - 1]) else s
  }

  datatype ParseOutcome = Parsed(value: int) | FormatError | OverflowError

  /** Text with optional surrounding white space, an optional sign and at least
      one decimal digit parses; a value outside [min, max] overflows; any other
      text is a format error. */
  function ParseInteger(s: string, min: int, max: int): (r: ParseOutcome)
    ensures r.Parsed? ==> min <= r.value <= max
  {
    var t := TrimEnd(TrimStart(s));
    var signed := |t| > 0 && (t[0] == '-' || t[0] == '+');
    var body := if signed then t[1..] else t;
    if |body| == 0 || !AllDigits(body) then FormatError
    else
      var magnitude: int := DigitsValue(body);
      var v := if signed && t[0] == '-' then -magnitude else magnitude;
      if min <= v <= max then Parsed(v) else OverflowError
  }

  function ParseInt32(s: string): (r: ParseOutcome)
    ensures r.Parsed? ==> Int32Min <= r.value <= Int32Max
  {
    ParseInteger(s, Int32Min, Int32Max)
  }

  function ParseInt64(s: string): (r: ParseOutcome)
    ensures r.Parsed? ==> Int64Min <= r.value <= Int64Max
  {
    ParseInteger(s, Int64Min, Int64Max)
  }

  lemma TrimmedWhenEndsAreNotWhite(s: string)
    requires |s| > 0 && !IsNumberWhite(s[0]) && !IsNumberWhite(s[|s| - 1])
    ensures TrimEnd(TrimStart(s)) == s
  {
  }

  /** Formatting an in-range integer and parsing it back gives the integer. */
  lemma ParseFormatRoundTrip(n: int, min: int, max: int)
    requires min <= n <= max
    ensures ParseInteger(FormatInteger(n), min, max) == Parsed(n)
  {
    var m: nat := if n < 0 then -n else n;
    FormatNatDigits(m);
    var digits := FormatNat(m);
    var s := FormatInteger(n);
    assert s[|s| - 1] == digits[|digits| - 1];
    TrimmedWhenEndsAreNotWhite(s);
    if n < 0 {
      assert s[1..] == digits;
    }
  }

  /** Text made of digits whose value exceeds max is an overflow, never a
      format error. */
  lemma DigitsBeyondRangeOverflow(s: string, min: int, max: int)
    requires |s| > 0 && AllDigits(s) && max < DigitsValue(s)
    ensures ParseInteger(s, min, max) == OverflowError
  {
    TrimmedWhenEndsAreNotWhite(s);
  }

  /** Text with no digit at all is a format error. */
  lemma NoDigitIsFormatError(s: string, min: int, max: int)
    requires forall i :: 0 <= i < |s| ==> !IsDigit(s[i])
    ensures ParseInteger(s, min, max) == FormatError
  {
    var t := TrimEnd(TrimStart(s));
    assert forall i :: 0 <= i < |t| ==> !IsDigit(t[i]) by {
      TrimKeepsInner(s);
    }
  }

  lemma {:induction false} TrimKeepsInner(s: string)
    ensures forall i :: 0 <= i < |TrimEnd(TrimStart(s))| ==> TrimEnd(TrimStart(s))[i] in s
  {
    TrimStartIsSuffix(s);
    TrimEndIsPrefix(TrimStart(s));
  }

  lemma {:induction false} TrimStartIsSuffix(s: string)
    ensures exists k :: 0 <= k <= |s| && TrimStart(s) == s[k..]
    decreases |s|
  {
    if |s| > 0 && IsNumberWhite(s[0]) {
      TrimStartIsSuffix(s[1..]);
      var k :| 0 <= k <= |s[1..]| && TrimStart(s[1..]) == s[1..][k..];
      assert TrimStart(s) == s[k + 1..];
    } else {
      assert TrimStart(s) == s[0..];
    }
  }

  lemma {:induction false} TrimEndIsPrefix(s: string)
    ensures exists k :: 0 <= k <= |s| && TrimEnd(s) == s[..k]
    decreases |s|
  {
    if |s| > 0 && IsNumberWhite(s[|s| - 1]) {
      TrimEndIsPrefix(s[..|s| - 1]);
      var k :| 0 <= k <= |s| - 1 && TrimEnd(s[..|s| - 1]) == s[..|s| - 1][..k];
      assert TrimEnd(s) == s[..k];
    } else {
      assert TrimEnd(s) == s[..|s|];
    }
  }

  // ---------------------------------------------------------------------------
  // Enum.TryParse(text, ignoreCase: true, out value), over the member names

  /** The first member whose name equals `text` ignoring case. */
  function EnumTryParse<T>(text: string, members: seq<(string, T)>): (r: Option<T>)
    ensures r.Some? ==> exists i :: 0 <= i < |members| && Lower(members[i].0) == Lower(text) && members[i].1 == r.value
    ensures r.None? <==> forall i :: 0 <= i < |members| ==> Lower(members[i].0) != Lower(text)
    decreases |members|
  {
    if members == [] then None
    else if Lower(members[0].0) == Lower(text) then Some(members[0].1)
    else
      var rest := EnumTryParse(text, members[1..]);
      assert rest.Some? ==> exists i :: 1 <= i < |members| && Lower(members[i].0) == Lower(text) && members[i].1 == rest.value by {
        if rest.Some? {
          var j :| 0 <= j < |members[1..]| && Lower(members[1..][j].0) == Lower(text) && members[1..][j].1 == rest.value;
          assert members[j + 1] == members[1..][j];
        }
      }
      rest
  }

  /** A text matching exactly one member's name parses to that member. */
  lemma EnumTryParseUnique<T>(text: string, members: seq<(string, T)>, k: nat)
    requires k < |members| && Lower(members[k].0) == Lower(text)
    requires forall i :: 0 <= i < |members| && i != k ==> Lower(members[i].0) != Lower(members[k].0)
    ensures EnumTryParse(text, members) == Some(members[k].1)
  {
  }

  // ---------------------------------------------------------------------------
  // System.IO.Path, as parameters of the platform the program runs on

  datatype PathPlatform = PathPlatform(
    invalidPathChars: seq<char>,             // Path.GetInvalidPathChars()
    pathSeparator: char,                     // Path.PathSeparator
    altDirectorySeparatorChar: char,         // Path.AltDirectorySeparatorChar
    isPathRooted: string -> bool,            // Path.IsPathRooted
    combine: (string, string) -> string)     // Path.Combine
}
