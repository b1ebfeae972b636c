/** String.Format with string arguments: `{{` and `}}` stand for one brace,
    `{n}` for the n-th argument, and any other brace is a format error. */
module CompositeFormat {
  import opened Wrappers
  import opened Primitives
  import opened Errors

  /** The number of decimal digits `s` starts with. */
  function LeadingDigits(s: string): (n: nat)
    ensures n <= |s| && AllDigits(s[..n])
    ensures n < |s| ==> !IsDigit(s[n])
    decreases |s|
  {
    if s == [] || !IsDigit(s[0]) then 0
    else
      var n := LeadingDigits(s[1..]);
      assert s[..n + 1] == [s[0]] + s[1..][..n];
      n + 1
  }

  function Format(template: string, args: seq<string>): Result<string, Error>
    decreases |template|
  {
    if template == [] then Success("")
    else if template[0] == '{' then
      if |template| >= 2 && template[1] == '{' then
        var rest :- Format(template[2..], args);
        Success("{" + rest)
      else
        var n := LeadingDigits(template[1..]);
        if n == 0 || 1 + n >= |template| || template[1 + n] != '}' then Failure(FormatFailure)
        else
          assert template[1..1 + n] == template[1..][..n];
          var index := DigitsValue(template[1..1 + n]);
          if index >= |args| then Failure(FormatIndexOutOfRange)
          else
            var rest :- Format(template[2 + n..], args);
            Success(args[index] + rest)
    else if template[0] == '}' then
      if |template| >= 2 && template[1] == '}' then
        var rest :- Format(template[2..], args);
        Success("}" + rest)
      else Failure(FormatFailure)
    else
      var rest :- Format(template[1..], args);
      Success([template[0]] + rest)
  }

  /** `s` followed by whatever formatting `rest` gives. */
  function Prepend(s: string, r: Result<string, Error>): Result<string, Error> {
    match r
    case Success(v) => Success(s + v)
    case Failure(e) => Failure(e)
  }

  predicate HasNoBraces(s: string) {
    forall i :: 0 <= i < |s| ==> s[i] != '{' && s[i] != '}'
  }

  /** One character as a template: a brace doubled, any other kept. */
  function EscapedChar(c: char): (t: string)
    ensures c != '{' && c != '}' ==> t == [c]
  {
    if c == '{' || c == '}' then [c, c] else [c]
  }

  /** Every brace doubled, as a template that formats to `s`. */
  function Escape(s: string): (t: string)
    ensures HasNoBraces(s) ==> t == s
    decreases |s|
  {
    if s == [] then "" else EscapedChar(s[0]) + Escape(s[1..])
  }

  lemma PrependNothing(r: Result<string, Error>)
    ensures Prepend("", r) == r
  {
    if r.Success? {
      assert "" + r.value == r.value;
    }
  }

  lemma PrependPrepend(a: string, b: string, r: Result<string, Error>)
    ensures Prepend(a, Prepend(b, r)) == Prepend(a + b, r)
  {
    if r.Success? {
      assert a + (b + r.value) == a + b + r.value;
    }
  }

  /** One character that is not a brace formats to itself. */
  lemma FormatStepPlain(c: char, t: string, args: seq<string>)
    requires c != '{' && c != '}'
    ensures Format([c] + t, args) == Prepend([c], Format(t, args))
  {
    assert ([c] + t)[1..] == t;
  }

  /** A doubled brace formats to one brace. */
  lemma FormatStepEscaped(c: char, t: string, args: seq<string>)
    requires c == '{' || c == '}'
    ensures Format([c, c] + t, args) == Prepend([c], Format(t, args))
  {
    assert ([c, c] + t)[2..] == t;
  }

  /** Text without braces formats to itself. */
  lemma {:induction false} FormatPlain(s: string, rest: string, args: seq<string>)
    requires HasNoBraces(s)
    ensures Format(s + rest, args) == Prepend(s, Format(rest, args))
    decreases |s|
  {
    if s != [] {
      assert s + rest == [s[0]] + (s[1..] + rest);
      FormatStepPlain(s[0], s[1..] + rest, args);
      FormatPlain(s[1..], rest, args);
      PrependPrepend([s[0]], s[1..], Format(rest, args));
      assert [s[0]] + s[1..] == s;
    } else {
      assert s + rest == rest;
      PrependNothing(Format(rest, args));
    }
  }

  /** An escaped text formats to the text itself: its braces are literal. */
  lemma {:induction false} FormatEscaped(s: string, rest: string, args: seq<string>)
    ensures Format(Escape(s) + rest, args) == Prepend(s, Format(rest, args))
    decreases |s|
  {
    if s == [] {
      assert Escape(s) + rest == rest;
      PrependNothing(Format(rest, args));
    } else {
      FormatEscaped(s[1..], rest, args);
      FormatEscapedStep(s, rest, args);
    }
  }

  /** One character more of escaped text, given the rest of it. */
  lemma FormatEscapedStep(s: string, rest: string, args: seq<string>)
    requires s != []
    requires Format(Escape(s[1..]) + rest, args) == Prepend(s[1..], Format(rest, args))
    ensures Format(Escape(s) + rest, args) == Prepend(s, Format(rest, args))
  {
    EscapeThen(s, rest);
    FormatHead(s[0], Escape(s[1..]) + rest, args);
    PrependPrepend([s[0]], s[1..], Format(rest, args));
    ConsSplit(s);
  }

  lemma EscapeThen(s: string, rest: string)
    requires s != []
    ensures Escape(s) + rest == EscapedChar(s[0]) + (Escape(s[1..]) + rest)
  {
  }

  lemma ConsSplit(s: string)
    requires s != []
    ensures [s[0]] + s[1..] == s
  {
  }

  /** The escaped form of one character formats to that character. */
  lemma FormatHead(c: char, t: string, args: seq<string>)
    ensures Format(EscapedChar(c) + t, args) == Prepend([c], Format(t, args))
  {
    if c == '{' || c == '}' {
      FormatStepEscaped(c, t, args);
    } else {
      FormatStepPlain(c, t, args);
    }
  }

  /** Escaped text in front of a template that formats comes out as it is. */
  lemma EscapedPrefixFormats(s: string, template: string, args: seq<string>, out: string)
    requires Format(template, args) == Success(out)
    ensures Format(Escape(s) + template, args) == Success(s + out)
  {
    FormatEscaped(s, template, args);
  }

  /** Text without braces in front of a template that formats comes out as
      it is. */
  lemma FormatPlainThen(s: string, rest: string, args: seq<string>, out: string)
    requires HasNoBraces(s) && Format(rest, args) == Success(out)
    ensures Format(s + rest, args) == Success(s + out)
  {
    FormatPlain(s, rest, args);
  }

  /** Text without braces is a template that formats to itself. */
  lemma FormatPlainAlone(s: string, args: seq<string>)
    requires HasNoBraces(s)
    ensures Format(s, args) == Success(s)
  {
    FormatPlain(s, "", args);
    assert s + "" == s;
  }

  /** A one-digit format item is replaced by its argument. */
  lemma FormatItem(d: char, rest: string, args: seq<string>)
    requires IsDigit(d) && DigitValue(d) < |args|
    ensures Format(['{', d, '}'] + rest, args) == Prepend(args[DigitValue(d)], Format(rest, args))
  {
    var t := ['{', d, '}'] + rest;
    assert t[1..] == [d] + "}" + rest;
    assert LeadingDigits(t[1..]) == 1 by {
      assert t[1..][1..] == "}" + rest;
    }
    assert t[1..2] == [d];
    assert DigitsValue([d]) == DigitValue(d) by {
      assert [d][..0] == [];
    }
    assert t[3..] == rest;
  }

  /** A one-digit format item in front of a template that formats. */
  lemma FormatItemThen(d: char, rest: string, args: seq<string>, out: string)
    requires IsDigit(d) && DigitValue(d) < |args| && Format(rest, args) == Success(out)
    ensures Format(['{', d, '}'] + rest, args) == Success(args[DigitValue(d)] + out)
  {
    FormatItem(d, rest, args);
  }

  /** Item 1 followed by brace-free text. */
  lemma FormatSecondItem(c: string, x: string, y: string)
    requires HasNoBraces(c)
    ensures Format("{1}" + c, [x, y]) == Success(y + c)
  {
    FormatPlainAlone(c, [x, y]);
    FormatItemThen('1', c, [x, y], c);
  }

  /** Item 0, brace-free text, then item 1 and brace-free text. */
  lemma FormatFirstItem(b: string, c: string, x: string, y: string)
    requires HasNoBraces(b) && HasNoBraces(c)
    ensures Format("{0}" + (b + ("{1}" + c)), [x, y]) == Success(x + (b + (y + c)))
  {
    FormatSecondItem(c, x, y);
    FormatPlainThen(b, "{1}" + c, [x, y], y + c);
    FormatItemThen('0', b + ("{1}" + c), [x, y], b + (y + c));
  }

  /** A template with items 0 and 1 between brace-free texts. */
  lemma FormatTwoItems(a: string, b: string, c: string, x: string, y: string)
    requires HasNoBraces(a) && HasNoBraces(b) && HasNoBraces(c)
    ensures Format(a + ("{0}" + (b + ("{1}" + c))), [x, y]) == Success(a + (x + (b + (y + c))))
  {
    FormatFirstItem(b, c, x, y);
    FormatPlainThen(a, "{0}" + (b + ("{1}" + c)), [x, y], x + (b + (y + c)));
  }

  /** A brace the template does not match stops the formatting. */
  lemma LoneOpeningBraceFails(s: string, args: seq<string>)
    requires HasNoBraces(s)
    ensures Format(s + "{", args) == Failure(FormatFailure)
  {
    FormatPlain(s, "{", args);
    assert LeadingDigits("{"[1..]) == 0;
  }
}
