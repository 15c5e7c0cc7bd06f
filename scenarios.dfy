/** What the model yields on three concrete forecasts. */
module Scenarios {
  import opened Wrappers
  import opened App

  /** A day whose only relevant field is its score. */
  function WithScore(score: Option<int>): DayRecord
  {
    DayRecord("", None, None, None, None, None, None, None, score)
  }

  /** Scores 40, 70, 70, 30, unscored: the first 70 is the best day. */
  lemma TieGoesToEarliest()
    ensures BestShownIndex([WithScore(Some(40)), WithScore(Some(70)), WithScore(Some(70)),
                            WithScore(Some(30)), WithScore(None)]) == 1
  {
    var shown := [WithScore(Some(40)), WithScore(Some(70)), WithScore(Some(70)),
                  WithScore(Some(30)), WithScore(None)];
    assert IsFirstMaximum(shown, 1);
    FirstMaximumUnique(shown, 1, BestShownIndex(shown));
  }

  /** Scores 40, 50, 45: the maximum 50 is below the threshold, so no best day. */
  lemma LowWindowHasNoBest()
    ensures BestShownIndex([WithScore(Some(40)), WithScore(Some(50)), WithScore(Some(45))]) == -1
  {
  }

  /** Swell wins on the first day; on the second the combined height fills the gap. */
  lemma FallbackPerDay()
    ensures var weather := DailyWeather(Some(["2024-01-01", "2024-01-02"]), None, None, None, None, None);
            var marine := DailyMarine(Some([None, Some(1.5)]), None, Some([Some(2.0), None]), None, None, None);
            var days := RawDays(Some(weather), Some(marine));
            |days| == 2 && days[0].waveH == Some(2.0) && days[1].waveH == Some(1.5) &&
            days[0].waveP.None? && days[0].score.None?
  {
  }
}
