# Surfer Weather: the forecast derivation, modelled in Dafny

Surfer Weather is a small web application. It takes the daily weather series and the
daily marine series that Open-Meteo returns for a place, and turns them into at most
five day cards. Each card carries a surf score from 0 to 100, or none when the wave data is missing, and at most one card is
badged "Best day". This project models that derivation and proves its properties:

- `surf.dfy` (module `Surf`, from `src/lib/surf.ts`): `surfScore` and the two banding
  ladders `scoreLabel` and `scoreColorClass`.
- `app.dfy` (module `App`, from `src/App.tsx`): the normalizer that builds day records
  from the two series; the display window of `DISPLAY_COUNT` = 5 days; the best-day loop
  with its `MIN_BEST_SCORE` = 55 gate, as a method proved equal to a function; and the
  `isBest` annotation. `Forecast` chains the four steps.
- `scenarios.dfy` (module `Scenarios`): three concrete forecasts checked against the model.
- `wrappers.dfy` (module `Wrappers`): `Option`, standing for `null`/`undefined`.

Modelling decisions:

- JavaScript numbers are exact reals. `Math.round` is `Floor(x + 1/2)`, so halves go toward
  +infinity. A wind value that `Number.isFinite` rejects (null, undefined, NaN, an infinity)
  is `None`.
- Every upstream daily array except `time` has type `Series<T> = Option<seq<Option<T>>>`.
  The weather `time` array is `Option<seq<string>>`: it may be absent, but its dates are
  assumed non-null, as `src/types.ts:21` declares it `string[]`. `At` reads as
  missing in three cases: the array is absent, the index is past its end, or the entry is null.
  A missing marine series reads as six absent arrays (`MarineFields`), just as `m?.field` does.
- `src/types.ts` declares only four of the marine wave fields. `src/App.tsx:55-63` reads six;
  it also reads `swell_wave_period_max` and `wind_wave_period_max`. The model has all six,
  because it follows the code.
- `scoreLabel` and `scoreColorClass` take any number (a real, optional for `scoreLabel`), as
  the source does, and return the datatypes `Label` and `ColorClass`. Each has a
  `Rank` (its order) and the source's string (`Text`, `Css`). The no-score label is stored in
  the source as a mis-encoded dash. Here it is the separate value `NoScore`, whose text is U+2014.

## Model

| member | source | states |
|---|---|---|
| `Surf.Round` | src/lib/surf.ts:10 | `Math.round`: the result r satisfies r - 1/2 <= x < r + 1/2, so halves round up |
| `Surf.Clamp` | src/lib/surf.ts:10 | the result lies in [0, 100]; values inside are kept, values below become 0, values above become 100 |
| `Surf.SurfScore` | src/lib/surf.ts:2-12 | null exactly when the height or the period is missing (wind never causes null); otherwise an integer in [0, 100]; its body is built from `SafeWind` (line 8: a missing or non-finite wind becomes `DefaultWind` = 10), `Raw` (line 9: h*30 + p*2 - w*0.8), `Round` and `Clamp` (line 10) |
| `Surf.MissingWindIsTen` | src/lib/surf.ts:8-10 | a missing wind scores the same as a wind of 10, i.e. clamp(round(h*30 + p*2 - 8)) |
| `Surf.ScoreOfRaw` | src/lib/surf.ts:9-10 | raw < 1/2 (so every raw <= -1/2) gives 0; raw >= 99.5 gives 100; between them the score is within 1/2 of raw |
| `Surf.RoundMonotone` | src/lib/surf.ts:10 | `Math.round` is non-decreasing |
| `Surf.ScoreMonotoneInHeight` | src/lib/surf.ts:9-10 | a larger wave height never lowers the score |
| `Surf.ScoreMonotoneInPeriod` | src/lib/surf.ts:9-10 | a longer period never lowers the score |
| `Surf.ScoreAntitoneInWind` | src/lib/surf.ts:9-10 | a stronger wind never raises the score |
| `Surf.ScoreLabel` | src/lib/surf.ts:23-30 | for any number or null: null gives the no-score label; the bands [80,inf) Epic, [60,80) Good, [40,60) Okay, [20,40) Poor and below 20 Flat/Blown, each an if-and-only-if; `Label.Text` holds the returned strings of lines 24-29, with U+2014 standing for the mis-encoded dash of line 24 |
| `Surf.LabelMonotone` | src/lib/surf.ts:23-30 | a higher score never gets a lower band, and any score ranks above no score |
| `Surf.ScoreColorClass` | src/lib/surf.ts:14-21 | total over every number; [75,inf) green, [50,75) lime, [30,50) yellow, [15,30) orange, below 15 red, each an if-and-only-if; `ColorClass.Css` holds the class names of lines 16-20 |
| `Surf.ColorMonotone` | src/lib/surf.ts:14-21 | a higher score never gets a lower colour |
| `App.At` | src/App.tsx:55-72 | optional indexing: present exactly when the array exists, the index is in range and the entry is non-null, and then it is that entry |
| `App.FirstPresent` | src/App.tsx:54-64 | `??` chain: missing exactly when every candidate is; otherwise the first present candidate, so a present 0 wins |
| `App.Fallback` | src/App.tsx:54-64 | swell value if present, else combined value if present, else the wind-wave value (possibly missing) |
| `App.RawDays` | src/App.tsx:47-80 | empty without weather dates; otherwise one record per date; record i has date time[i], the weather fields at index i, the fallback wave height and period, and exactly the surfScore of its own fields; `App.Day` is the `map` callback of lines 52-79 and `App.MarineFields` the `m?.` of lines 49 and 55-63 (an absent marine series reads as six absent arrays) |
| `App.MarineKeepsWeather` | src/App.tsx:50-52 | marine data never changes the number of records, their dates or their weather fields |
| `App.NoMarineNoWaves` | src/App.tsx:49-64 | with no marine series every wave height, wave period and score is missing |
| `App.Shown` | src/App.tsx:83 | the display window is the prefix of length min(5, n), in the same order |
| `App.Scan` | src/App.tsx:86-93 | after n steps of the loop: the running maximum of the scored records so far and the index where it first occurs, or (-1, -1) |
| `App.FirstMaximumUnique` | src/App.tsx:88-93 | the first occurrence of the window's maximum is unique |
| `App.BestShownIndex` | src/App.tsx:86-94 | -1 or a window index; if an index, its score is >= 55 and is the first maximum; -1 exactly when no scored record reaches 55 |
| `App.SelectBest` | src/App.tsx:86-94 | the `forEach` loop with strict `>` and the threshold reset compute exactly `BestShownIndex` |
| `App.Annotate` | src/App.tsx:96-99 | same length; every record unchanged; `isBest` holds exactly at the chosen index |
| `App.AtMostOneBest` | src/App.tsx:96-99 | at most one annotated day is best |
| `App.Forecast` | src/App.tsx:47-99 | the displayed days are the first min(5, n) records; at most one is best; the best one scores >= 55, at least every other scored day, and more than every earlier day; none is best exactly when no displayed score reaches 55 |
| `Scenarios.TieGoesToEarliest` | src/App.tsx:86-94 | scores 40, 70, 70, 30, unscored select index 1 |
| `Scenarios.LowWindowHasNoBest` | src/App.tsx:94 | scores 40, 50, 45 select nothing |
| `Scenarios.FallbackPerDay` | src/App.tsx:52-64 | swell 2.0 wins on day one; combined 1.5 fills a null swell on day two; no period means no score |

## Left out

- Fetching (`searchPlacesDE`, `fetchWeather`, `fetchMarine` in `src/lib/openMeteo.ts`) is network I/O. Its parsed results are the inputs of `RawDays` and `Forecast`.
- The `useEffect` load is left out. This covers `Promise.all`, the `alive` staleness flag and the loading and error state (`src/App.tsx:21-44`). So is the search box state (`src/components/SearchBox.tsx`). These are React state and event-loop concurrency.
- The debounce timer (`src/hooks/useDebouncedValue.ts`) is left out because it is a timer and a React hook.
- All rendering is left out: JSX, the weather-code emoji table, date formatting, the chart in `src/components/HourlyPreview.tsx`, and the hourly arrays that are passed through unchanged. This is presentation and library calls.
- IEEE-754 behaviour (NaN, infinities, rounding error in `h*30` or `w*0.8`) is not modelled. Inputs are exact reals, and a non-finite wind is `None`.
- `src/types.ts` only declares types and has no behaviour. The datatypes follow the fields `src/App.tsx` reads instead.
