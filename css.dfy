/**
 * CSS value strings that the components assemble by concatenation: the
 * 42-degree linear gradient and percentage widths.
 */
module Css {
  import opened Wrappers
  import opened Strings
  import opened Colors

  /** The text every gradient string starts with. */
  const GradientPrefix := "linear-gradient(42deg, "

  /** "linear-gradient(42deg, c0, c1, ..., ck)": the colours joined by ", ". */
  function LinearGradient(colors: seq<string>): (css: string)
    ensures |css| > |GradientPrefix| && css[..|GradientPrefix|] == GradientPrefix
    ensures css[|css| - 1] == ')'
  {
    GradientPrefix + Join(colors, ", ") + ")"
  }

  /** The hex texts of a list of colours (tinycolor's toHexString, kept abstract). */
  function HexTexts(hues: seq<Hue>, toHex: Hue -> string): (texts: seq<string>)
    ensures |texts| == |hues|
    ensures forall i :: 0 <= i < |hues| ==> texts[i] == toHex(hues[i])
  {
    if hues == [] then [] else [toHex(hues[0])] + HexTexts(hues[1..], toHex)
  }

  /** Reads a width such as "70%" back as its number of percent. */
  function PercentValue(width: string): (p: Option<nat>)
    ensures p.Some? <==> |width| >= 2 && width[|width| - 1] == '%' && AllDigits(width[..|width| - 1])
  {
    if |width| >= 2 && width[|width| - 1] == '%' && AllDigits(width[..|width| - 1])
    then Some(DecimalValue(width[..|width| - 1]))
    else None
  }

  /** `digits + "0%"` denotes ten times the number the digits denote. */
  lemma {:induction false} TenfoldPercent(digits: string)
    requires |digits| >= 1 && AllDigits(digits)
    ensures PercentValue(digits + "0%") == Some(10 * DecimalValue(digits))
  {
    var w := digits + "0%";
    assert w[..|w| - 1] == digits + "0";
    AppendZero(digits);
  }

  /** Writing n percent as its decimal text plus "%" and reading it back gives n. */
  lemma PercentRoundTrip(n: nat)
    ensures PercentValue(NatToString(n) + "%") == Some(n)
  {
    var w := NatToString(n) + "%";
    assert w[..|w| - 1] == NatToString(n);
    DecimalRoundTrip(n);
  }
}
