/**
 * The coded errors of PromiseEvent: `error(code)` looks the code up in a fixed
 * message table and always throws an `Error` whose message is
 * "[Code <code>] <text>", with "Unknown error." for codes the table lacks.
 * Throwing is modelled by returning the message that would be thrown.
 */
module Errors {

  import opened Options

  /** The codes that have an entry in the message table. */
  const KnownCodes: set<nat> := {10, 11, 20, 21, 22, 23}

  const UnknownText: string := "Unknown error."

  /** The message-table entry for `code`, or the fallback text. */
  function Description(code: nat): (text: string)
    ensures code in KnownCodes <==> text != UnknownText
    ensures text != []
  {
    match code
    // Errors of the PromiseEvent constructor
    case 10 => "The provided argument is not a function."
    case 11 => "The provided function does not have two arguments."
    // Errors of all()
    case 20 => "No argument was provided."
    case 21 => "The provided argument is not an array."
    case 22 => "The provided array has no items."
    case 23 => "The items in the array are not valid promises."
    case _ => UnknownText
  }

  // ---------------------------------------------------------------------
  // Decimal rendering of a code, as a template literal prints a number.

  predicate IsDigit(c: char) {
    '0' <= c <= '9'
  }

  function DigitChar(d: nat): (c: char)
    requires d < 10
    ensures IsDigit(c) && DigitValue(c) == d
  {
    ('0' as int + d) as char
  }

  function DigitValue(c: char): nat {
    if IsDigit(c) then c as int - '0' as int else 0
  }

  /** The shortest decimal numeral of `n`. */
  function Decimal(n: nat): (s: string)
    ensures s != []
    ensures forall k | 0 <= k < |s| :: IsDigit(s[k])
  {
    if n < 10 then [DigitChar(n)] else Decimal(n / 10) + [DigitChar(n % 10)]
  }

  /** The value of a numeral (most significant digit first). */
  function ParseDecimal(s: string): nat {
    if s == [] then 0 else ParseDecimal(s[..|s| - 1]) * 10 + DigitValue(s[|s| - 1])
  }

  lemma {:induction false} ParseDecimalInvertsDecimal(n: nat)
    ensures ParseDecimal(Decimal(n)) == n
  {
    var s := Decimal(n);
    if n >= 10 {
      assert s[..|s| - 1] == Decimal(n / 10);
      ParseDecimalInvertsDecimal(n / 10);
    }
  }

  /** The longest prefix of `s` made of digits. */
  function LeadingDigits(s: string): (d: string)
    ensures |d| <= |s| && d == s[..|d|]
    ensures forall k | 0 <= k < |d| :: IsDigit(d[k])
    ensures |d| < |s| ==> !IsDigit(s[|d|])
  {
    if s == [] || !IsDigit(s[0]) then [] else [s[0]] + LeadingDigits(s[1..])
  }

  lemma {:induction false} LeadingDigitsOfNumeral(d: string, rest: string)
    requires forall k | 0 <= k < |d| :: IsDigit(d[k])
    requires rest != [] && !IsDigit(rest[0])
    ensures LeadingDigits(d + rest) == d
  {
    if d != [] {
      assert (d + rest)[1..] == d[1..] + rest;
      LeadingDigitsOfNumeral(d[1..], rest);
    }
  }

  // ---------------------------------------------------------------------
  // The thrown message and the code it carries.

  const Prefix: string := "[Code "

  /** "[Code <code>] <text>": the template literal of `error`. */
  function Render(code: nat, text: string): (m: string)
    ensures |Prefix| + |text| < |m|
    ensures m[..|Prefix|] == Prefix && m[|m| - |text|..] == text
  {
    Prefix + Decimal(code) + "] " + text
  }

  /**
   * The message of the `Error` that `error(code)` throws: it carries its code,
   * which can be read back from the text, and ends with the table text.
   */
  function ErrorMessage(code: nat): (m: string)
    ensures CodeOf(m) == Some(code)
    ensures |Description(code)| < |m| && m[|m| - |Description(code)|..] == Description(code)
  {
    CodeOfRender(code, Description(code));
    Render(code, Description(code))
  }

  /** The code a message of the form "[Code <digits>] ..." carries, if any. */
  function CodeOf(m: string): (r: Option<nat>)
    ensures r.Some? ==> |Prefix| < |m| && m[..|Prefix|] == Prefix
  {
    if |m| <= |Prefix| || m[..|Prefix|] != Prefix then None
    else
      var digits := LeadingDigits(m[|Prefix|..]);
      if digits == [] then None else Some(ParseDecimal(digits))
  }

  /** The code can be read back from the rendered message, whatever its text. */
  lemma CodeOfRender(code: nat, text: string)
    ensures CodeOf(Render(code, text)) == Some(code)
  {
    var d, tail := Decimal(code), "] " + text;
    var m := Render(code, text);
    assert m == Prefix + d + tail;
    assert m[..6] == Prefix;
    assert m[6..] == d + tail;
    LeadingDigitsOfNumeral(d, tail);
    CodeOfDigits(m, d);
    ParseDecimalInvertsDecimal(code);
  }

  lemma CodeOfDigits(m: string, d: string)
    requires |m| > |Prefix| && m[..|Prefix|] == Prefix
    requires d != [] && LeadingDigits(m[|Prefix|..]) == d
    ensures CodeOf(m) == Some(ParseDecimal(d))
  {
  }

  /** Different codes are thrown with different messages. */
  lemma ErrorMessageInjective(a: nat, b: nat)
    requires ErrorMessage(a) == ErrorMessage(b)
    ensures a == b
  {
  }
}
