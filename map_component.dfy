/** The classification helpers of the station map (`MapComponent`): the
    colour of an air-quality reading for its parameter, the colour of a
    station's status, and the trend arrow shown next to a reading. */
module MapComponent {
  import opened Common

  /** `type: 'uv' | 'pm25' | 'pm1_0'` */
  datatype Parameter = Uv | Pm25 | Pm1_0

  const GreenColor := "#10b981"
  const YellowColor := "#f59e0b"
  const OrangeColor := "#f97316"
  const RedColor := "#ef4444"
  /** `getParameterColor`'s colour for a missing reading. */
  const MissingColor := "#6b7280"
  /** `getAirQualityColor`'s colour for a missing reading. */
  const MissingGray := "#gray"

  /** The four bands, from the mildest. */
  datatype Band = Good | Moderate | High | Severe

  function Rank(b: Band): nat
  {
    match b
    case Good => 0
    case Moderate => 1
    case High => 2
    case Severe => 3
  }

  /** The inclusive upper ends of the green, yellow and orange bands. */
  datatype Limits = Limits(green: real, yellow: real, orange: real)

  function ParameterLimits(p: Parameter): Limits
  {
    match p
    case Uv => Limits(2.0, 5.0, 7.0)
    case Pm25 => Limits(12.0, 35.0, 55.0)
    case Pm1_0 => Limits(20.0, 50.0, 100.0)
  }

  /** The `if (value <= ...) return ...` chain. */
  function BandOf(x: real, p: Parameter): Band
  {
    var l := ParameterLimits(p);
    if x <= l.green then Good else if x <= l.yellow then Moderate else if x <= l.orange then High else Severe
  }

  function BandColor(b: Band): string
  {
    match b
    case Good => GreenColor
    case Moderate => YellowColor
    case High => OrangeColor
    case Severe => RedColor
  }

  /** `getParameterColor` inside `createStationIcon`; `None` is `null`. */
  function GetParameterColor(value: Option<real>, p: Parameter): string
  {
    match value
    case None => MissingColor
    case Some(x) => BandColor(BandOf(x, p))
  }

  /** `getAirQualityColor` */
  function GetAirQualityColor(value: Option<real>, p: Parameter): string
  {
    match value
    case None => MissingGray
    case Some(x) => BandColor(BandOf(x, p))
  }

  /** Each parameter's bands: green up to the first limit, yellow up to the
      second, orange up to the third and red above it. */
  lemma BandIff(x: real, p: Parameter)
    ensures var l := ParameterLimits(p);
            (BandOf(x, p) == Good <==> x <= l.green)
            && (BandOf(x, p) == Moderate <==> l.green < x <= l.yellow)
            && (BandOf(x, p) == High <==> l.yellow < x <= l.orange)
            && (BandOf(x, p) == Severe <==> l.orange < x)
  {
  }

  /** A larger reading never gets a milder band. */
  lemma BandMonotone(x: real, y: real, p: Parameter)
    requires x <= y
    ensures Rank(BandOf(x, p)) <= Rank(BandOf(y, p))
  {
  }

  /** Distinct bands have distinct colours, so the colour tells the band. */
  lemma BandColorsDistinct(a: Band, b: Band)
    requires a != b
    ensures BandColor(a) != BandColor(b)
  {
  }

  /** The two helpers agree on every reading and differ only on a missing
      one, where they give `#6b7280` and `#gray`. */
  lemma ColorHelpersAgree(value: Option<real>, p: Parameter)
    ensures value.Some? ==> GetParameterColor(value, p) == GetAirQualityColor(value, p)
    ensures value.None? ==> GetParameterColor(value, p) == MissingColor && GetAirQualityColor(value, p) == MissingGray
    ensures GetParameterColor(value, p) == GetAirQualityColor(value, p) <==> value.Some?
  {
  }

  /** The status ring of a station icon. */
  function StatusColor(status: string): string
  {
    if status == "online" then GreenColor else if status == "offline" then RedColor else YellowColor
  }

  /** Online is green, offline red and every other status amber. */
  lemma StatusColorCases(status: string)
    ensures StatusColor(status) == GreenColor <==> status == "online"
    ensures StatusColor(status) == RedColor <==> status == "offline"
    ensures StatusColor(status) == YellowColor <==> status != "online" && status != "offline"
  {
  }

  /** What `TrendArrow` renders: a dash, or an arrow in a colour with the
      trend's magnitude. */
  datatype TrendView = Dash | Arrow(color: string, arrow: string, magnitude: real)

  /** `TrendArrow({ trend })`; `None` is `undefined`, and `undefined`, `0`
      and `NaN` are all falsy. */
  function TrendArrow(trend: Option<Number>): TrendView
  {
    match trend
    case Some(Finite(t)) =>
      if t == 0.0 then Dash
      else if t > 0.0 then Arrow(RedColor, "↗", t)
      else Arrow(GreenColor, "↘", -t)
    case _ => Dash
  }

  /** A missing, zero or `NaN` trend shows a dash; a rise shows a red
      up-arrow and a fall a green down-arrow, each with the trend's
      absolute value. */
  lemma TrendArrowCases(trend: Option<Number>)
    ensures TrendArrow(trend).Dash? <==> trend.None? || trend.value.NaN? || trend.value.r == 0.0
    ensures trend.Some? && trend.value.Finite? && trend.value.r > 0.0 ==>
              TrendArrow(trend) == Arrow(RedColor, "↗", trend.value.r)
    ensures trend.Some? && trend.value.Finite? && trend.value.r < 0.0 ==>
              TrendArrow(trend) == Arrow(GreenColor, "↘", -trend.value.r)
    ensures TrendArrow(trend).Arrow? ==> TrendArrow(trend).magnitude > 0.0
  {
  }
}
