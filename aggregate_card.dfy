/**
 * A summary card with an optional trend badge: the trend's sign picks the
 * badge's colour, its icon and whether the figure carries a "+".
 */
module AggregateCard {
  import opened Optional

  /** The `trend` prop: a percentage change and its caption. The source's
      `number` is modelled by whole percentages. */
  datatype Trend = Trend(value: int, caption: string)

  /** `trend ? trend.value > 0 : null`. */
  function IsPositive(trend: Option<Trend>): Option<bool> {
    match trend
    case None => None
    case Some(t) => Some(t.value > 0)
  }

  /** `trend ? trend.value === 0 : null`. */
  function IsNeutral(trend: Option<Trend>): Option<bool> {
    match trend
    case None => None
    case Some(t) => Some(t.value == 0)
  }

  /** JavaScript truthiness of `true | false | null`. */
  predicate Truthy(b: Option<bool>) {
    b.Some? && b.value
  }

  /** The three colour schemes the badge's class list can pick up. */
  datatype BadgeStyle = SuccessStyle | MutedStyle | DestructiveStyle

  /** The class list `cn(...)` assembles: every scheme whose condition is truthy. */
  function StylesApplied(isPositive: Option<bool>, isNeutral: Option<bool>): set<BadgeStyle> {
    (if Truthy(isPositive) then {SuccessStyle} else {})
    + (if Truthy(isNeutral) then {MutedStyle} else {})
    + (if !Truthy(isPositive) && !Truthy(isNeutral) then {DestructiveStyle} else {})
  }

  datatype TrendIcon = TrendingUp | Flat | TrendingDown

  /** The nested conditional that picks the badge's icon. */
  function IconOf(isPositive: Option<bool>, isNeutral: Option<bool>): TrendIcon {
    if Truthy(isPositive) then TrendingUp
    else if Truthy(isNeutral) then Flat
    else TrendingDown
  }

  /** `{isPositive && "+"}`: React renders nothing for `false` and `null`. */
  function SignPrefix(isPositive: Option<bool>): string {
    if Truthy(isPositive) then "+" else ""
  }

  /** The badge as rendered, or None when there is no trend. */
  datatype Badge = Badge(styles: set<BadgeStyle>, icon: TrendIcon, prefix: string)

  function BadgeOf(trend: Option<Trend>): (b: Option<Badge>)
    ensures b.None? <==> trend.None?
  {
    match trend
    case None => None
    case Some(_) =>
      var pos, neu := IsPositive(trend), IsNeutral(trend);
      Some(Badge(StylesApplied(pos, neu), IconOf(pos, neu), SignPrefix(pos)))
  }

  /** With a trend both flags are booleans giving the sign of its value;
      without one both are null. */
  lemma FlagsClassifySign(trend: Option<Trend>)
    ensures trend.None? ==> IsPositive(trend).None? && IsNeutral(trend).None?
    ensures trend.Some? ==> IsPositive(trend).Some? && IsNeutral(trend).Some?
    ensures trend.Some? ==>
      (Truthy(IsPositive(trend)) <==> trend.value.value > 0) &&
      (Truthy(IsNeutral(trend)) <==> trend.value.value == 0)
    ensures !(Truthy(IsPositive(trend)) && Truthy(IsNeutral(trend)))
  {
  }

  /** The colour scheme a trend of value `v` should get. */
  function StyleForSign(v: int): BadgeStyle {
    if v > 0 then SuccessStyle else if v == 0 then MutedStyle else DestructiveStyle
  }

  /** The icon a trend of value `v` should get. */
  function IconForSign(v: int): TrendIcon {
    if v > 0 then TrendingUp else if v == 0 then Flat else TrendingDown
  }

  /** With a trend, exactly one colour scheme applies, and it and the icon
      agree with the sign of the value; "+" is shown only for a rise. */
  lemma BadgeFollowsSign(t: Trend)
    ensures var b := BadgeOf(Some(t)).value;
      b.styles == {StyleForSign(t.value)} &&
      b.icon == IconForSign(t.value) &&
      (b.prefix == "+" <==> t.value > 0) &&
      (b.prefix == "" <==> t.value <= 0)
  {
    var pos, neu := IsPositive(Some(t)), IsNeutral(Some(t));
    if t.value > 0 {
      assert StylesApplied(pos, neu) == {SuccessStyle};
    } else if t.value == 0 {
      assert StylesApplied(pos, neu) == {MutedStyle};
    } else {
      assert StylesApplied(pos, neu) == {DestructiveStyle};
    }
  }

  /** Exactly one scheme: the destructive one is the fallback of the other two. */
  lemma OneStyleApplies(t: Trend)
    ensures |BadgeOf(Some(t)).value.styles| == 1
  {
    BadgeFollowsSign(t);
  }
}
