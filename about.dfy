/**
 * The About section's skill bars. Each skill row carries its level in its
 * class name ("skill-level-N"); the bar animations read the level back by
 * splitting the class name on "-", and turn it into CSS widths. The bar's
 * background is a gradient of two, three or four colours of a tetrad,
 * chosen by the level.
 */
module About {
  import opened Wrappers
  import opened Strings
  import opened Css
  import opened Colors
  import JsMath

  /** The class name a skill row is rendered with. */
  function SkillClassName(level: nat): (name: string)
    ensures |name| > 12 && name[..12] == "skill-level-"
  {
    "skill-level-" + NatToString(level)
  }

  /** `className.split("-")[2]`, or undefined when there is no third part. */
  function SizeText(className: string): (size: Option<string>)
    ensures size.Some? ==> '-' !in size.value
  {
    var parts := Split(className, '-');
    if |parts| > 2 then Some(parts[2]) else None
  }

  /** Splitting a rendered class name gives back the decimal text of its level, which denotes the level. */
  lemma {:induction false} ClassNameRoundTrip(level: nat)
    ensures SizeText(SkillClassName(level)) == Some(NatToString(level))
    ensures DecimalValue(NatToString(level)) == level
  {
    var d := NatToString(level);
    assert SkillClassName(level) == "skill" + ['-'] + ("level" + ['-'] + d);
    SplitAfterHead("skill", '-', "level" + ['-'] + d);
    SplitAfterHead("level", '-', d);
    SplitWithoutSeparator(d, '-');
    DecimalRoundTrip(level);
  }

  /** `mySize + "0%"`: the full bar width; undefined concatenates as the text "undefined". */
  function BarWidth(size: Option<string>): string {
    match size
    case Some(text) => text + "0%"
    case None => "undefined0%"
  }

  /** The full bar of a level-N skill is 10·N percent wide. */
  lemma {:induction false} BarWidthIsTenfold(level: nat)
    ensures PercentValue(BarWidth(SizeText(SkillClassName(level)))) == Some(10 * level)
  {
    ClassNameRoundTrip(level);
    TenfoldPercent(NatToString(level));
  }

  /** `Math.round(level / 2)`: half the level, rounded up on odd levels. */
  function HalfLevel(level: nat): (half: nat)
    ensures 2 * half == level || 2 * half == level + 1
  {
    var h := JsMath.Round(level as real / 2.0);
    assert level % 2 == 0 ==> h == level / 2;
    assert level % 2 == 1 ==> h == level / 2 + 1;
    h
  }

  /** `myHalfSize + "0%"`: the width the bar shrinks to while hovered. */
  function HoverWidth(level: nat): (width: string)
    ensures PercentValue(width) == Some(10 * HalfLevel(level))
  {
    TenfoldPercent(NatToString(HalfLevel(level)));
    DecimalRoundTrip(HalfLevel(level));
    NatToString(HalfLevel(level)) + "0%"
  }

  /** Odd levels round up: a level-7 bar shrinks to "40%". */
  lemma HoverWidthOfSeven()
    ensures HoverWidth(7) == "40%"
  {
    assert HalfLevel(7) == 4;
  }

  /** The three bar styles, by the number of tetrad colours in their gradient. */
  datatype BarStyle = FullStyle | PartialStyle | LowStyle

  function ColorCount(style: BarStyle): nat {
    match style
    case FullStyle => 4
    case PartialStyle => 3
    case LowStyle => 2
  }

  /** `level > 9 ? full : level > 5 ? partial : low` */
  function BarStyleFor(level: int): (style: BarStyle)
    ensures 2 <= ColorCount(style) <= 4
    ensures level >= 10 <==> ColorCount(style) == 4
    ensures 6 <= level <= 9 <==> ColorCount(style) == 3
    ensures level <= 5 <==> ColorCount(style) == 2
  {
    if level > 9 then FullStyle else if level > 5 then PartialStyle else LowStyle
  }

  /** A higher level never gets fewer gradient colours. */
  lemma BarColorsMonotone(a: int, b: int)
    requires a <= b
    ensures ColorCount(BarStyleFor(a)) <= ColorCount(BarStyleFor(b))
  {
  }

  /**
   * The gradient a skill bar is painted with, for the tetrad seeded by
   * #CCFF00 spun by `draw`·360 degrees: the first two, three or four tetrad
   * colours, by the skill's level.
   */
  function BarGradient(level: int, draw: real, toHex: Hue -> string): (css: string)
    requires JsMath.IsDraw(draw)
  {
    var tetrad := Tetrad(Spin(Lime, draw * 360.0));
    LinearGradient(HexTexts(tetrad[..ColorCount(BarStyleFor(level))], toHex))
  }

  /** Each bar gradient lists the seed colour first, then each further colour a quarter turn on. */
  lemma BarGradientColors(level: int, draw: real, toHex: Hue -> string)
    requires JsMath.IsDraw(draw)
    ensures var k := ColorCount(BarStyleFor(level));
            var seed := Spin(Lime, draw * 360.0);
            exists hues: seq<Hue> ::
              && |hues| == k && hues[0] == seed
              && (forall i :: 0 <= i < k - 1 ==> hues[i + 1] == Spin(hues[i], 90.0))
              && BarGradient(level, draw, toHex) == LinearGradient(HexTexts(hues, toHex))
  {
    var k := ColorCount(BarStyleFor(level));
    var tetrad := Tetrad(Spin(Lime, draw * 360.0));
    var hues := tetrad[..k];
    assert |hues| == k && hues[0] == tetrad[0];
    assert forall i :: 0 <= i < k - 1 ==> hues[i + 1] == Spin(hues[i], 90.0);
  }

  // ---------------------------------------------------------------------
  // animateSkills

  /** What animateSkillIn schedules for one skill row. */
  datatype SkillAnimation = SkillAnimation(rowDelay: real, barDelay: real, barWidth: string)

  /** animateSkillIn(skill, delay): the row fades in after `delay`, its bars 0.25 s later. */
  function SkillIn(className: string, delay: real): SkillAnimation {
    SkillAnimation(delay, delay + 0.25, BarWidth(SizeText(className)))
  }

  /** animateSkills: the i-th row is delayed i·0.25 s. */
  method AnimateSkills(classNames: seq<string>) returns (plan: seq<SkillAnimation>)
    ensures |plan| == |classNames|
    ensures forall i :: 0 <= i < |plan| ==> plan[i] == SkillIn(classNames[i], i as real * 0.25)
  {
    plan := [];
    var i := 0;
    while i < |classNames|
      invariant 0 <= i <= |classNames| && |plan| == i
      invariant forall j :: 0 <= j < i ==> plan[j] == SkillIn(classNames[j], j as real * 0.25)
    {
      plan := plan + [SkillIn(classNames[i], i as real * 0.25)];
      i := i + 1;
    }
  }

  /**
   * For rows rendered from skill levels: row i starts at i·0.25 s, its bar
   * 0.25 s after its row, and the bar grows to 10·level percent.
   */
  lemma {:induction false} SkillPlanForLevels(levels: seq<nat>, plan: seq<SkillAnimation>, i: nat)
    requires |plan| == |levels| && i < |levels|
    requires forall j :: 0 <= j < |plan| ==> plan[j] == SkillIn(SkillClassName(levels[j]), j as real * 0.25)
    ensures plan[i].rowDelay == i as real * 0.25
    ensures plan[i].barDelay == plan[i].rowDelay + 0.25
    ensures PercentValue(plan[i].barWidth) == Some(10 * levels[i])
  {
    BarWidthIsTenfold(levels[i]);
  }
}
