/**
 * The forecast derivation of src/App.tsx: the day normalizer, the display
 * window, the best-day scan and the `isBest` annotation.
 */
module App {
  import opened Wrappers
  import Surf

  /** `DISPLAY_COUNT`: how many days are shown. */
  const DisplayCount: nat := 5
  /** `MIN_BEST_SCORE`: the score a day needs before it may be badged as best. */
  const MinBestScore: int := 55

  /** An upstream daily array: absent altogether, or a list whose entries may each be null. */
  type Series<T> = Option<seq<Option<T>>>

  /** The weather daily series, with the fields the normalizer reads. */
  datatype DailyWeather = DailyWeather(
    time: Option<seq<string>>,
    weatherCode: Series<int>,
    temperatureMax: Series<real>,
    temperatureMin: Series<real>,
    precipitationSum: Series<real>,
    windSpeedMax: Series<real>)

  /** The marine daily series: combined, swell and wind-wave maxima of height and period. */
  datatype DailyMarine = DailyMarine(
    waveHeightMax: Series<real>,
    wavePeriodMax: Series<real>,
    swellWaveHeightMax: Series<real>,
    swellWavePeriodMax: Series<real>,
    windWaveHeightMax: Series<real>,
    windWavePeriodMax: Series<real>)

  /** One normalized, scored day. */
  datatype DayRecord = DayRecord(
    date: string,
    wmo: Option<int>,
    tmax: Option<real>,
    tmin: Option<real>,
    rain: Option<real>,
    wind: Option<real>,
    waveH: Option<real>,
    waveP: Option<real>,
    score: Option<int>)

  /** A displayed day: the record with its best-day badge. */
  datatype ShownDay = ShownDay(day: DayRecord, isBest: bool)

  function Min(a: int, b: int): int
  {
    if a <= b then a else b
  }

  /** `s?.[i]`: an absent array, an index past its end and a null entry all read as missing. */
  function At<T>(s: Series<T>, i: nat): (r: Option<T>)
    ensures r.Some? <==> s.Some? && i < |s.value| && s.value[i].Some?
    ensures r.Some? ==> s.value[i] == r
  {
    if s.Some? && i < |s.value| then s.value[i] else None
  }

  /** `a ?? b ?? ...`: the first present candidate; a present 0 is not skipped. */
  function FirstPresent<T>(candidates: seq<Option<T>>): (r: Option<T>)
    ensures r.None? <==> forall k :: 0 <= k < |candidates| ==> candidates[k].None?
    ensures forall k :: (0 <= k < |candidates| && candidates[k].Some? &&
                         forall j :: 0 <= j < k ==> candidates[j].None?) ==> r == candidates[k]
  {
    if |candidates| == 0 then None
    else if candidates[0].Some? then candidates[0]
    else FirstPresent(candidates[1..])
  }

  /** The three-level marine fallback at day i: swell, then combined, then wind-wave. */
  function Fallback(swell: Series<real>, combined: Series<real>, windWave: Series<real>, i: nat): (r: Option<real>)
    ensures At(swell, i).Some? ==> r == At(swell, i)
    ensures At(swell, i).None? && At(combined, i).Some? ==> r == At(combined, i)
    ensures At(swell, i).None? && At(combined, i).None? ==> r == At(windWave, i)
  {
    var candidates := [At(swell, i), At(combined, i), At(windWave, i)];
    var r := FirstPresent(candidates);
    assert candidates[0] == At(swell, i) && candidates[1] == At(combined, i) && candidates[2] == At(windWave, i);
    r
  }

  /** `m?.field`: with no marine series every marine array reads as absent. */
  function MarineFields(marine: Option<DailyMarine>): DailyMarine
  {
    if marine.Some? then marine.value else DailyMarine(None, None, None, None, None, None)
  }

  /** The record for day i, dated `date`. */
  function Day(w: DailyWeather, m: DailyMarine, date: string, i: nat): DayRecord
  {
    var waveH := Fallback(m.swellWaveHeightMax, m.waveHeightMax, m.windWaveHeightMax, i);
    var waveP := Fallback(m.swellWavePeriodMax, m.wavePeriodMax, m.windWavePeriodMax, i);
    var wind := At(w.windSpeedMax, i);
    DayRecord(date, At(w.weatherCode, i), At(w.temperatureMax, i), At(w.temperatureMin, i),
              At(w.precipitationSum, i), wind, waveH, waveP, Surf.SurfScore(waveH, waveP, wind))
  }

  /** `rawDays`: one record per date of the weather series, in order; empty without dates. */
  function RawDays(weather: Option<DailyWeather>, marine: Option<DailyMarine>): (days: seq<DayRecord>)
    ensures weather.None? || weather.value.time.None? ==> days == []
    ensures weather.Some? && weather.value.time.Some? ==> |days| == |weather.value.time.value|
    ensures forall i :: 0 <= i < |days| ==>
              var w := weather.value;
              var m := MarineFields(marine);
              days[i].date == w.time.value[i] &&
              days[i].wmo == At(w.weatherCode, i) &&
              days[i].tmax == At(w.temperatureMax, i) &&
              days[i].tmin == At(w.temperatureMin, i) &&
              days[i].rain == At(w.precipitationSum, i) &&
              days[i].wind == At(w.windSpeedMax, i) &&
              days[i].waveH == Fallback(m.swellWaveHeightMax, m.waveHeightMax, m.windWaveHeightMax, i) &&
              days[i].waveP == Fallback(m.swellWavePeriodMax, m.wavePeriodMax, m.windWavePeriodMax, i) &&
              days[i].score == Surf.SurfScore(days[i].waveH, days[i].waveP, days[i].wind)
  {
    if weather.None? || weather.value.time.None? then []
    else
      var time := weather.value.time.value;
      seq(|time|, i requires 0 <= i < |time| => Day(weather.value, MarineFields(marine), time[i], i))
  }

  /** Marine data never changes how many days there are, nor their dates and weather fields. */
  lemma MarineKeepsWeather(weather: Option<DailyWeather>, m1: Option<DailyMarine>, m2: Option<DailyMarine>)
    ensures |RawDays(weather, m1)| == |RawDays(weather, m2)|
    ensures forall i :: 0 <= i < |RawDays(weather, m1)| ==>
              var d1, d2 := RawDays(weather, m1)[i], RawDays(weather, m2)[i];
              d1.date == d2.date && d1.wmo == d2.wmo && d1.tmax == d2.tmax &&
              d1.tmin == d2.tmin && d1.rain == d2.rain && d1.wind == d2.wind
  {
  }

  /** With no marine series, every wave field and so every score is missing. */
  lemma NoMarineNoWaves(weather: Option<DailyWeather>)
    ensures forall i :: 0 <= i < |RawDays(weather, None)| ==>
              RawDays(weather, None)[i].waveH.None? &&
              RawDays(weather, None)[i].waveP.None? &&
              RawDays(weather, None)[i].score.None?
  {
  }

  /** `shown`: the first `DisplayCount` records, in the same order. */
  function Shown(raw: seq<DayRecord>): (shown: seq<DayRecord>)
    ensures |shown| == Min(DisplayCount, |raw|)
    ensures shown <= raw
  {
    raw[..Min(DisplayCount, |raw|)]
  }

  /** Record k has the highest score of the window and no earlier record equals it. */
  ghost predicate IsFirstMaximum(shown: seq<DayRecord>, k: int)
  {
    0 <= k < |shown| && shown[k].score.Some? &&
    (forall j :: 0 <= j < |shown| && shown[j].score.Some? ==> shown[j].score.value <= shown[k].score.value) &&
    (forall j :: 0 <= j < k ==> shown[j].score.None? || shown[j].score.value < shown[k].score.value)
  }

  /** The first occurrence of the maximum is unique. */
  lemma FirstMaximumUnique(shown: seq<DayRecord>, k1: int, k2: int)
    requires IsFirstMaximum(shown, k1) && IsFirstMaximum(shown, k2)
    ensures k1 == k2
  {
  }

  /**
   * The state of the `forEach` after its first n steps: (bestScore, bestShownIndex),
   * both starting at -1 and replaced only on a strictly greater score.
   */
  function Scan(shown: seq<DayRecord>, n: nat): (acc: (int, int))
    requires n <= |shown|
    ensures -1 <= acc.1 < n
    ensures acc.1 == -1 ==> acc.0 == -1
    ensures acc.1 >= 0 ==> shown[acc.1].score == Some(acc.0) && acc.0 > -1
    ensures forall j :: 0 <= j < n && shown[j].score.Some? ==> shown[j].score.value <= acc.0
    ensures forall j :: 0 <= j < acc.1 ==> shown[j].score.None? || shown[j].score.value < acc.0
  {
    if n == 0 then (-1, -1)
    else
      var acc := Scan(shown, n - 1);
      var d := shown[n - 1];
      if d.score.Some? && d.score.value > acc.0 then (d.score.value, n - 1) else acc
  }

  /** The index marked best, or -1: the first maximum, discarded below `MinBestScore`. */
  function BestShownIndex(shown: seq<DayRecord>): (idx: int)
    ensures -1 <= idx < |shown|
    ensures idx >= 0 ==> IsFirstMaximum(shown, idx) && shown[idx].score.value >= MinBestScore
    ensures idx == -1 <==> forall j :: 0 <= j < |shown| ==> shown[j].score.None? || shown[j].score.value < MinBestScore
  {
    var acc := Scan(shown, |shown|);
    if acc.0 < MinBestScore then -1 else acc.1
  }

  /** The best-day loop (src/App.tsx:86-94). */
  method SelectBest(shown: seq<DayRecord>) returns (bestShownIndex: int)
    ensures bestShownIndex == BestShownIndex(shown)
  {
    bestShownIndex := -1;
    var bestScore := -1;
    for i := 0 to |shown|
      invariant (bestScore, bestShownIndex) == Scan(shown, i)
    {
      var d := shown[i];
      if d.score.Some? && d.score.value > bestScore {
        bestScore := d.score.value;
        bestShownIndex := i;
      }
    }
    if bestScore < MinBestScore {
      bestShownIndex := -1;
    }
  }

  /** `days`: every shown record unchanged, badged exactly when it sits at `bestShownIndex`. */
  function Annotate(shown: seq<DayRecord>, bestShownIndex: int): (days: seq<ShownDay>)
    ensures |days| == |shown|
    ensures forall i :: 0 <= i < |days| ==> days[i].day == shown[i]
    ensures forall i :: 0 <= i < |days| ==> (days[i].isBest <==> i == bestShownIndex)
  {
    seq(|shown|, i requires 0 <= i < |shown| => ShownDay(shown[i], i == bestShownIndex))
  }

  /** Whatever index is passed, at most one displayed day carries the badge. */
  lemma AtMostOneBest(shown: seq<DayRecord>, bestShownIndex: int)
    ensures forall i, j :: 0 <= i < j < |shown| ==>
              !(Annotate(shown, bestShownIndex)[i].isBest && Annotate(shown, bestShownIndex)[j].isBest)
  {
  }

  /** The whole derivation, from the two daily series to the displayed, badged days. */
  method Forecast(weather: Option<DailyWeather>, marine: Option<DailyMarine>) returns (days: seq<ShownDay>)
    ensures |days| == Min(DisplayCount, |RawDays(weather, marine)|)
    ensures forall i :: 0 <= i < |days| ==> days[i].day == RawDays(weather, marine)[i]
    ensures forall i, j :: 0 <= i < |days| && 0 <= j < |days| && days[i].isBest && days[j].isBest ==> i == j
    ensures forall i :: 0 <= i < |days| && days[i].isBest ==>
              days[i].day.score.Some? && days[i].day.score.value >= MinBestScore &&
              (forall j :: 0 <= j < |days| && days[j].day.score.Some? ==> days[j].day.score.value <= days[i].day.score.value) &&
              (forall j :: 0 <= j < i ==> days[j].day.score.None? || days[j].day.score.value < days[i].day.score.value)
    ensures (forall i :: 0 <= i < |days| ==> !days[i].isBest) <==>
            (forall i :: 0 <= i < |days| ==> days[i].day.score.None? || days[i].day.score.value < MinBestScore)
  {
    var raw := RawDays(weather, marine);
    var shown := Shown(raw);
    var best := SelectBest(shown);
    days := Annotate(shown, best);
  }
}
