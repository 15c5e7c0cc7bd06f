/**
 * The surf score and its presentation bands (src/lib/surf.ts).
 *
 * JavaScript numbers are modelled as exact reals; a wind reading that is
 * null, undefined or not finite is `None`.
 */
module Surf {
  import opened Wrappers

  /** Wind speed (km/h) assumed when the daily maximum wind is missing. */
  const DefaultWind: real := 10.0

  /** `Math.round`: the nearest integer, with halves going toward +infinity. */
  function Round(x: real): (r: int)
    ensures r as real - 0.5 <= x < r as real + 0.5
  {
    (x + 0.5).Floor
  }

  /** `Math.max(0, Math.min(100, v))`. */
  function Clamp(v: int): (r: int)
    ensures 0 <= r <= 100
    ensures 0 <= v <= 100 ==> r == v
    ensures v < 0 ==> r == 0
    ensures v > 100 ==> r == 100
  {
    if v > 100 then 100 else if v < 0 then 0 else v
  }

  /** The linear heuristic before rounding: height dominates, period helps, wind hurts. */
  function Raw(waveHeight: real, period: real, wind: real): real
  {
    waveHeight * 30.0 + period * 2.0 - wind * 0.8
  }

  /** The wind the formula uses: the reading if it is a finite number, else `DefaultWind`. */
  function SafeWind(wind: Option<real>): real
  {
    if wind.Some? then wind.value else DefaultWind
  }

  /** `surfScore`: an integer in [0, 100], or `None` when the wave geometry is incomplete. */
  function SurfScore(waveHeight: Option<real>, period: Option<real>, wind: Option<real>): (r: Option<int>)
    ensures r.None? <==> waveHeight.None? || period.None?
    ensures r.Some? ==> 0 <= r.value <= 100
  {
    if waveHeight.None? || period.None? then None
    else
      Some(Clamp(Round(Raw(waveHeight.value, period.value, SafeWind(wind)))))
  }

  /** A missing wind counts as 10 km/h, i.e. a penalty of exactly 8 points before rounding. */
  lemma MissingWindIsTen(h: real, p: real)
    ensures SurfScore(Some(h), Some(p), None) == SurfScore(Some(h), Some(p), Some(10.0))
    ensures SurfScore(Some(h), Some(p), None) == Some(Clamp(Round(h * 30.0 + p * 2.0 - 8.0)))
  {
  }

  /**
   * What the score means in terms of the raw value: everything below 1/2
   * (in particular every raw <= -1/2) is 0, everything from 99.5 up is 100,
   * and in between the score is the integer nearest to raw, halves rounding up.
   */
  lemma ScoreOfRaw(h: real, p: real, w: real)
    ensures var raw := Raw(h, p, w);
            var s := SurfScore(Some(h), Some(p), Some(w)).value;
            (raw < 0.5 ==> s == 0) &&
            (raw >= 99.5 ==> s == 100) &&
            (0.5 <= raw < 99.5 ==> s as real - 0.5 <= raw < s as real + 0.5)
  {
  }

  lemma RoundMonotone(x: real, y: real)
    requires x <= y
    ensures Round(x) <= Round(y)
  {
  }

  lemma ScoreMonotoneInHeight(h1: real, h2: real, p: real, wind: Option<real>)
    requires h1 <= h2
    ensures SurfScore(Some(h1), Some(p), wind).value <= SurfScore(Some(h2), Some(p), wind).value
  {
  }

  lemma ScoreMonotoneInPeriod(h: real, p1: real, p2: real, wind: Option<real>)
    requires p1 <= p2
    ensures SurfScore(Some(h), Some(p1), wind).value <= SurfScore(Some(h), Some(p2), wind).value
  {
  }

  lemma ScoreAntitoneInWind(h: real, p: real, w1: real, w2: real)
    requires w1 <= w2
    ensures SurfScore(Some(h), Some(p), Some(w2)).value <= SurfScore(Some(h), Some(p), Some(w1)).value
  {
  }

  /** The verbal bands of `scoreLabel`, ordered from worst to best after `NoScore`. */
  datatype Label = NoScore | FlatBlown | Poor | Okay | Good | Epic
  {
    function Text(): string
    {
      match this
      case NoScore => "\U{2014}"
      case FlatBlown => "Flat/Blown"
      case Poor => "Poor"
      case Okay => "Okay"
      case Good => "Good"
      case Epic => "Epic"
    }

    function Rank(): nat
    {
      match this
      case NoScore => 0
      case FlatBlown => 1
      case Poor => 2
      case Okay => 3
      case Good => 4
      case Epic => 5
    }
  }

  /** `scoreLabel`: top-down ladder over any number, lower bounds inclusive, first match wins. */
  function ScoreLabel(score: Option<real>): (l: Label)
    ensures l.NoScore? <==> score.None?
    ensures l.Epic? <==> score.Some? && 80.0 <= score.value
    ensures l.Good? <==> score.Some? && 60.0 <= score.value < 80.0
    ensures l.Okay? <==> score.Some? && 40.0 <= score.value < 60.0
    ensures l.Poor? <==> score.Some? && 20.0 <= score.value < 40.0
    ensures l.FlatBlown? <==> score.Some? && score.value < 20.0
  {
    if score.None? then NoScore
    else if score.value >= 80.0 then Epic
    else if score.value >= 60.0 then Good
    else if score.value >= 40.0 then Okay
    else if score.value >= 20.0 then Poor
    else FlatBlown
  }

  /** A higher score never gets a lower band, and any score beats no score. */
  lemma LabelMonotone(s1: Option<real>, s2: real)
    requires s1.Some? ==> s1.value <= s2
    ensures ScoreLabel(s1).Rank() <= ScoreLabel(Some(s2)).Rank()
    ensures s1.None? ==> ScoreLabel(s1).Rank() < ScoreLabel(Some(s2)).Rank()
  {
  }

  /** The colour ramp of `scoreColorClass`, ordered from worst to best. */
  datatype ColorClass = Red | Orange | Yellow | Lime | Green
  {
    function Css(): string
    {
      match this
      case Red => "bg-red-500"
      case Orange => "bg-orange-500"
      case Yellow => "bg-yellow-500"
      case Lime => "bg-lime-500"
      case Green => "bg-green-500"
    }

    function Rank(): nat
    {
      match this
      case Red => 0
      case Orange => 1
      case Yellow => 2
      case Lime => 3
      case Green => 4
    }
  }

  /** `scoreColorClass`: total over every number, top-down, lower bounds inclusive. */
  function ScoreColorClass(score: real): (c: ColorClass)
    ensures c.Green? <==> 75.0 <= score
    ensures c.Lime? <==> 50.0 <= score < 75.0
    ensures c.Yellow? <==> 30.0 <= score < 50.0
    ensures c.Orange? <==> 15.0 <= score < 30.0
    ensures c.Red? <==> score < 15.0
  {
    if score >= 75.0 then Green
    else if score >= 50.0 then Lime
    else if score >= 30.0 then Yellow
    else if score >= 15.0 then Orange
    else Red
  }

  lemma ColorMonotone(s1: real, s2: real)
    requires s1 <= s2
    ensures ScoreColorClass(s1).Rank() <= ScoreColorClass(s2).Rank()
  {
  }
}
