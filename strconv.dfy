/**
  The two pieces of Go's standard library that the boolean flag value relies on:
  `strconv.ParseBool`, which turns text into a bool, and the text that
  `fmt.Sprintf("%v", b)` renders for a bool.
 */
module Strconv {
  import opened Wrappers

  /** The error `strconv.ParseBool` reports for text it does not recognise.
      Its exact value and message are not modelled: it is "some error". */
  datatype Error = ErrSyntax

  /** The pair `(bool, error)` that `strconv.ParseBool` returns. */
  datatype ParseResult = ParseResult(value: bool, err: Option<Error>)

  /** The spellings accepted as `true`. */
  const TrueForms: set<string> := {"1", "t", "T", "TRUE", "true", "True"}

  /** The spellings accepted as `false`. */
  const FalseForms: set<string> := {"0", "f", "F", "FALSE", "false", "False"}

  /** Every spelling `ParseBool` accepts. */
  const Accepted: set<string> := TrueForms + FalseForms

  /** `strconv.ParseBool`: a case-sensitive switch over twelve exact spellings.
      Any other text yields `false` together with an error. */
  function ParseBool(s: string): (r: ParseResult)
    ensures r.err.None? <==> s in Accepted
    ensures r.err.None? ==> (r.value <==> s in TrueForms)
    ensures r.err.Some? ==> !r.value
  {
    match s
    case "1" | "t" | "T" | "true" | "TRUE" | "True" => ParseResult(true, None)
    case "0" | "f" | "F" | "false" | "FALSE" | "False" => ParseResult(false, None)
    case _ => ParseResult(false, Some(ErrSyntax))
  }

  /** What `fmt.Sprintf("%v", b)` renders for a bool. It is the canonical
      spelling, so `ParseBool` reads it back without error. */
  function FormatBool(b: bool): (r: string)
    ensures r == "true" || r == "false"
    ensures ParseBool(r) == ParseResult(b, None)
  {
    if b then "true" else "false"
  }

  /** The accepted spellings are twelve distinct strings, six for each value. */
  lemma AcceptedHasTwelveForms()
    ensures |TrueForms| == 6 && |FalseForms| == 6
    ensures TrueForms !! FalseForms
    ensures |Accepted| == 12
  {
  }

  // An independent description of the accepted spellings: a digit, or the
  // word or its initial letter written in lower case, upper case or title case.

  function UpperChar(c: char): char
  {
    if 'a' <= c <= 'z' then (c as int - 32) as char else c
  }

  function Upper(w: string): string
  {
    if w == [] then [] else [UpperChar(w[0])] + Upper(w[1..])
  }

  function Title(w: string): string
  {
    if w == [] then [] else [UpperChar(w[0])] + w[1..]
  }

  /** The three casings of a lower-case word. */
  function Casings(w: string): set<string>
  {
    {w, Upper(w), Title(w)}
  }

  /** `ParseBool` accepts the digit, the initial and the whole word, each in
      lower, upper and title case only: any other mixture of cases fails. */
  lemma AcceptedAreThreeCasings()
    ensures TrueForms == {"1"} + Casings("t") + Casings("true")
    ensures FalseForms == {"0"} + Casings("f") + Casings("false")
  {
    assert Upper("t") == "T" && Upper("f") == "F";
    assert Upper("true") == "TRUE" by {
      assert Upper("e") == "E";
      assert Upper("ue") == "UE";
      assert Upper("rue") == "RUE";
    }
    assert Upper("false") == "FALSE" by {
      assert Upper("e") == "E";
      assert Upper("se") == "SE";
      assert Upper("lse") == "LSE";
      assert Upper("alse") == "ALSE";
    }
    assert Title("true") == "True" && Title("false") == "False";
  }

  /** The texts that survive a parse-then-render round trip unchanged are
      exactly the two canonical spellings. */
  lemma RenderAfterParse(s: string)
    ensures ParseBool(s).err.None? && FormatBool(ParseBool(s).value) == s
        <==> s == "true" || s == "false"
  {
  }

  /** Rendering the value of any accepted text gives a text that parses to the
      same value: rendering normalises without changing meaning. */
  lemma RenderNormalises(s: string)
    requires s in Accepted
    ensures ParseBool(FormatBool(ParseBool(s).value)) == ParseBool(s)
  {
  }

  predicate IsSpace(c: char)
  {
    c == ' ' || c == '\t' || c == '\n' || c == '\r'
  }

  /** `ParseBool` does not trim: any text with a leading or trailing blank,
      such as "TRUE ", is rejected. */
  lemma NoTrimming(s: string, c: char)
    requires IsSpace(c)
    ensures ParseBool(s + [c]).err.Some? && ParseBool([c] + s).err.Some?
  {
    forall t | t in Accepted
      ensures |t| > 0 && !IsSpace(t[0]) && !IsSpace(t[|t| - 1])
    {
    }
    var padRight, padLeft := s + [c], [c] + s;
    assert padRight[|padRight| - 1] == c && padLeft[0] == c;
  }

  /** Some texts outside the twelve, each rejected with `false` as value. */
  lemma RejectedExamples()
    ensures ParseBool("") == ParseResult(false, Some(ErrSyntax))
    ensures ParseBool("yes") == ParseResult(false, Some(ErrSyntax))
    ensures ParseBool("2") == ParseResult(false, Some(ErrSyntax))
    ensures ParseBool("TRUE ") == ParseResult(false, Some(ErrSyntax))
    ensures ParseBool("tRUE") == ParseResult(false, Some(ErrSyntax))
  {
  }
}
