# Weather best-day service: a Dafny model

This project models the core of a small weather-preference web service. A
user stores a preference (a location and optional thresholds for
temperature, cloudiness, wind speed, rain volume and snow volume), and the
service recommends the "best day" of a five-day forecast for that user.

The model covers two parts.

- **The best-day engine** (`forecast_best_day` in services/forecast.py).
  It groups the three-hourly forecast samples by date, in first-seen order.
  It drops every day with a sample that fails one of the five preference
  checks. It scores each remaining day as a weighted sum of its five field
  averages, and returns the date with the strictly smallest score.
  - `Forecast` (forecast.dfy) holds the samples, the checks, the
    extractors and the weights, and a functional specification of the
    engine (`Dates`, `DaySamples`, `DayValid`, `DayScore`, `ValidScores`,
    `Best`, `BestDay`).
  - The engine itself is written as methods that mirror the source loops:
    the ordered dictionary becomes a key sequence plus a map, the five
    running totals, the `valid` flag with its `break`, and the running
    minimum. `Forecast.ForecastBestDay` is proved equal to `BestDay`.
  - `ForecastProperties` (forecast_properties.dfy) proves what the engine
    promises: grouping, validity, scoring, and the selection of the
    earliest minimum.
- **The user controller** (controllers/user.py). It covers user creation,
  the validation and upsert of a user's preference, and the outcome chain
  of the best-day request.
  - `UserController` (user_controller.dfy) models the database session as
    the class `UserStore`, with a user table, a unique name index and a
    preference table.
  - Each `HTTPException` becomes a `Failure(HttpError(status, detail))`.
  - The validation chains are pure functions, and each is related to an
    ordered list of guards whose first failure decides the error.
  - `Text` (text.dfy) models Python's `str.strip()` over the characters
    `str.isspace()` accepts.

Python truthiness is modelled explicitly.

- A sample value of 0 counts as absent: it passes every check and adds 0
  to the totals.
- A cloud, wind or rain threshold of 0 disables that check.
- The temperature bounds are tested with `is not None`, so a bound of 0 is
  enforced.

The fifth check of the source (services/forecast.py:53) calls the *rain*
check with the *snow* limit. The model keeps this as written: snow volume
never affects validity, and rain volume is compared with `max_snow_volume`.
`snow_preference_check` is modelled as `Forecast.SnowCheck` but is not used
by the engine, as in the source. Snow does count in the score.

The variable the fifth result is stored in, `is_snow_pref_passed`, and
the unused `snow_preference_check` (services/forecast.py:53, 127-132)
suggest that a snow check was meant; the model still follows the code.

Floating-point numbers are modelled as `real`. The `float('inf')` sentinel
of the running minimum is an `Option<real>` that starts as `None`.

## Model

| member | source | states |
|---|---|---|
| Forecast.Weight | services/forecast.py:5-11 | the weights table: temp 0.1, cloud 0.2, wind 0.3, rain 0.4, snow 0.5 (each strictly between 0 and 1) |
| Forecast.TemperatureCheck | services/forecast.py:90-100 | an absent or zero temperature passes; otherwise the check passes iff each bound that is set (including a bound of 0) holds inclusively |
| Forecast.CloudCheck | services/forecast.py:103-108 | passes iff cloudiness is absent or 0, the limit is unset or 0, or cloudiness ≤ limit |
| Forecast.WindCheck | services/forecast.py:111-116 | passes iff wind speed is absent or 0, the limit is unset or 0, or speed ≤ limit |
| Forecast.RainCheck | services/forecast.py:119-124 | passes iff the 3h rain volume is absent or 0, the limit is unset or 0, or volume ≤ limit |
| Forecast.SnowCheck | services/forecast.py:127-132 | passes iff the 3h snow volume is absent or 0, the limit is unset or 0, or volume ≤ limit |
| Forecast.Reading | services/forecast.py:135-172 | a non-zero extracted value is the sample's reading of that field, and a present non-zero reading is extracted unchanged (anything else gives 0) |
| Forecast.SamplePasses | services/forecast.py:47-62 | a sample passes iff the temperature, cloud, wind and rain checks pass and the rain check also passes against the snow limit (the fifth check of line 53) |
| Forecast.Dates | services/forecast.py:23-28 | the keys of the ordered dictionary: each date that occurs, once, in first-seen order |
| Forecast.DaySamples | services/forecast.py:24-28 | the list stored under a date: that date's samples in source order |
| Forecast.Groups | services/forecast.py:23-28 | the ordered dictionary's map: each key date to its samples |
| Forecast.DayValid | services/forecast.py:45-64 | a day is valid iff every one of its samples passes the five checks |
| Forecast.Total | services/forecast.py:55-59 | the running total of one field: the sum of its extracted readings over the day |
| Forecast.Average | services/forecast.py:69-75 | a field's total divided by the number of samples, and 0 for an empty day |
| Forecast.DayScore | services/forecast.py:69-76 | the weighted sum of the five field averages |
| Forecast.ValidScores | services/forecast.py:36-76 | the weighted-sum dictionary as a list: the valid days in key order, each with its score |
| Forecast.Best | services/forecast.py:78-85 | the scan for the smallest weighted sum: a later entry replaces the best only with a strictly smaller score |
| Forecast.BestDay | services/forecast.py:14-87 | the engine's result as a function of the samples and the preference: the date of the best scored day, or none |
| Forecast.DatesDistinct | services/forecast.py:23-28 | the grouped dates contain no duplicates |
| Forecast.GroupByDate | services/forecast.py:23-28 | the loop's key order is the distinct dates in first-seen order and its map sends each date to that date's samples in source order |
| Forecast.ScoreDay | services/forecast.py:36-76 | the loop with `break` reports a day valid iff every sample passes all five checks, and then returns the weighted sum of the five field averages |
| Forecast.ScoreDays | services/forecast.py:30-76 | the scored dictionary's keys are exactly the valid days, in group order, each mapped to its score |
| Forecast.PickBest | services/forecast.py:78-87 | the running minimum with strict `<` returns the date of the first smallest score, or none when no day was scored |
| Forecast.ForecastBestDay | services/forecast.py:14-87 | the whole engine returns exactly the specified best day |
| ForecastProperties.FirstIndex | services/forecast.py:24-28 | the position of a date's first sample carries that date and no earlier sample does |
| ForecastProperties.DatesMembership | services/forecast.py:23-28 | a date is a group key iff some sample carries it |
| ForecastProperties.DatesInFirstSeenOrder | services/forecast.py:23-28 | the group keys are ordered by the position of each date's first sample |
| ForecastProperties.DaySamplesMembers | services/forecast.py:26-28 | a sample is in a date's group iff it is a sample of that date |
| ForecastProperties.DaySamplesAppend | services/forecast.py:24-28 | grouping more samples appends to a group in source order |
| ForecastProperties.DaySamplesNonEmpty | services/forecast.py:23-28 | a date's group is non-empty iff the date is a group key |
| ForecastProperties.SizeSumSnoc | services/forecast.py:24-28 | one more sample adds one to the group sizes when its date is a key |
| ForecastProperties.GroupSizesSum | services/forecast.py:23-28 | the group sizes sum to the number of samples |
| ForecastProperties.SnowNeverChecked | services/forecast.py:47-53 | a sample's snow reading never changes whether it passes the five checks |
| ForecastProperties.RainMeasuredAgainstSnowLimit | services/forecast.py:53 | a sample with no snow fails when its rain volume exceeds a positive snow limit |
| ForecastProperties.ZeroTemperatureBoundEnforced | services/forecast.py:90-98 | a minimum temperature of 0 rejects a sample at -5 |
| ForecastProperties.SameVerdictsSameScores | services/forecast.py:45-76 | two preferences that give every sample the same verdict score the same days |
| ForecastProperties.ZeroLimitsDisableChecks | services/forecast.py:103-124 | a cloud, wind, rain or snow limit of 0 picks the same day as leaving that limit unset |
| ForecastProperties.SumOfSampleScoresByField | services/forecast.py:55-59 | the sum of the per-sample weighted scores equals the weighted sum of the five field totals |
| ForecastProperties.DayScoreIsMeanOfSampleScores | services/forecast.py:69-76 | a day's score is the mean of its samples' weighted scores |
| ForecastProperties.BestNoneIff | services/forecast.py:78-87 | the minimum scan finds nothing iff there is no scored day |
| ForecastProperties.ValidScoresEmptyIff | services/forecast.py:68-76 | no day is scored iff no day is valid |
| ForecastProperties.ValidScoresSnoc | services/forecast.py:36-76 | a further date adds one scored entry iff that day is valid |
| ForecastProperties.BestSnoc | services/forecast.py:82-85 | a further entry replaces the current best only when its score is strictly smaller |
| ForecastProperties.BestOfValidScores | services/forecast.py:68-87 | the selection is empty iff no day is valid; otherwise it is a valid day whose score is ≤ every valid day's and < every earlier valid day's |
| ForecastProperties.BestIsEarliestMinimum | services/forecast.py:78-87 | a selected day is the earliest valid day of minimal score |
| ForecastProperties.ExtendMinimum | services/forecast.py:82-85 | one more step of the scan keeps the selection the earliest minimum |
| ForecastProperties.FirstValidIsMinimum | services/forecast.py:82-85 | the first valid day the scan sees becomes the earliest minimum |
| ForecastProperties.StepKeepsMinimum | services/forecast.py:83 | a later day takes over the earliest minimum only with a strictly smaller score |
| ForecastProperties.GroupOfEverySample | services/forecast.py:23-28 | every sample's date is a group key, and its group is that date's samples |
| ForecastProperties.BestDayNoneIff | services/forecast.py:78-87 | the engine returns none iff no sample's day is valid, which includes empty input |
| ForecastProperties.BestDayInGroups | services/forecast.py:78-87 | the returned day is a group key at a position that is the earliest minimum |
| ForecastProperties.EarlierSampleEarlierDate | services/forecast.py:23-28 | a sample before a date's first sample belongs to an earlier group key |
| ForecastProperties.BestDayIsEarliestMinimum | services/forecast.py:45-87 | the returned day occurs, is valid, scores ≤ every valid day and < every valid day first seen earlier |
| ForecastProperties.TieGoesToEarlierDay | services/forecast.py:83 | of two days with equal scores the later one is never returned when the earlier one is valid |
| ForecastProperties.FailingSampleExcludesDay | services/forecast.py:61-64 | a day with one failing sample is never returned |
| ForecastProperties.UnsetThresholdsPickADay | services/forecast.py:92-124 | with every threshold unset the engine returns none iff there are no samples |
| ForecastProperties.SingleSampleDayScore | services/forecast.py:69-76 | a one-sample day scores that sample's weighted readings |
| ForecastProperties.TwoDayGrouping | services/forecast.py:23-28 | two samples of distinct dates form two one-sample groups in order |
| ForecastProperties.TwoDaysPickLower | services/forecast.py:78-87 | of two valid one-sample days the strictly lower score wins, else the first |
| ForecastProperties.TwoValidDays | services/forecast.py:36-76 | two passing one-sample days of distinct dates are both scored, in order |
| ForecastProperties.BestOfTwo | services/forecast.py:78-87 | the scan over two scored days keeps the first unless the second is strictly smaller |
| ForecastProperties.TwoDayExample | services/forecast.py:5-87 | concrete days scoring 5.5 and 12.1 with no thresholds pick the first |
| Text.SpaceTrimmed | controllers/user.py:65 | what stripping means: the result is a slice of the input with only whitespace before and after it |
| Text.TrimStart | controllers/user.py:65 | the result is a suffix of the input, everything removed is whitespace, and it does not start with whitespace |
| Text.TrimEnd | controllers/user.py:65 | the result is a prefix of the input, everything removed is whitespace, and it does not end with whitespace |
| Text.Strip | controllers/user.py:65 | the result is a slice of the input with only whitespace on either side, neither end is whitespace, and it is empty iff the input is all whitespace |
| Text.StripSlice | controllers/user.py:65 | stripping leaves the slice between the leading and the trailing whitespace |
| Text.StripEmptyIffAllSpace | controllers/user.py:65-68 | stripping gives the empty string iff the input is all whitespace |
| Text.StripIdempotent | controllers/user.py:65 | stripping twice is stripping once |
| UserController.FirstFailure | controllers/user.py:60-83 | a guard chain raises nothing iff no guard fails, and otherwise raises the error of the first failing guard |
| UserController.NormalizedLocation | controllers/user.py:65 | a missing location stays missing; a given one becomes the slice of the input between its leading and trailing whitespace, which neither starts nor ends with whitespace, and is empty iff the input was all whitespace |
| UserController.PreferenceGuards | controllers/user.py:60-83 | the update's seven checks in source order, each with its status and message: unknown user 404, empty stripped location, min above max, then a negative cloudiness, wind, rain and snow limit (422) |
| UserController.WellFormed | controllers/user.py:65-83 | what an accepted preference satisfies: a stripped non-empty location or none, min ≤ max when both are set, no negative limit |
| UserController.CheckPreferenceUpdate | controllers/user.py:60-83 | an unknown user gives 404; a location that strips to empty gives 422 "Invalid location value"; an accepted value is the submission with its location stripped and is well formed |
| UserController.FirstFailureAt | controllers/user.py:60-83 | one guard of the chain either raises its error or defers to the guards after it |
| UserController.PreferenceGuardChain | controllers/user.py:60-83 | the update fails with the error of the first failing check in the order user, location, temperature, cloudiness, wind, rain, snow, and otherwise accepts the stripped submission |
| UserController.WellFormedAccepted | controllers/user.py:65-83 | a preference that is well formed passes the update unchanged |
| UserController.StrippedLocationKept | controllers/user.py:65 | a location that is already stripped, or missing, is stored as it is |
| UserController.UpdateIdempotent | controllers/user.py:65-83 | submitting an accepted preference again is accepted unchanged |
| UserController.CreateUserGuards | controllers/user.py:23-29 | user creation's two checks in order: a taken user name, then a confirmation that differs from the password (both 422) |
| UserController.CreateUserError | controllers/user.py:23-29 | a taken name gives 422 "User name already exists" before the confirmation is checked; otherwise it fails iff the confirmation differs |
| UserController.UserStore.constructor | controllers/user.py:9 | an empty store is valid |
| UserController.UserStore.CreateUser | controllers/user.py:23-39 | on an error nothing changes; otherwise the user is added under the fresh id and the name index, with an all-unset preference, and the store stays valid |
| UserController.UserStore.UpdateUserPreference | controllers/user.py:60-103 | on a failed check nothing changes; otherwise the user's preference becomes exactly the accepted value, every other preference and all users are unchanged, and the store stays valid |
| UserController.UserStore.GetUserForecastBestDay | controllers/user.py:140-159 | unknown user 404, then missing preference 500, then unset location 422, then no valid day 404 "No best day", otherwise the engine's best day |

## Left out

- The forecast fetch (services/forecast.py:20) and the pyowm client in utils/owm_client.py: the network is not modelled. The samples are an input parameter, and `GetUserForecastBestDay` takes the forecast for the user's location as a parameter.
- The conversion of a sample's timestamp to a date string (services/forecast.py:25): each sample already carries an opaque date key.
- The `KeyError` a rain or snow record without a `"3h"` entry would raise: such a reading is modelled as absent.
- Floating-point rounding: the model uses exact `real` arithmetic, so ties under IEEE rounding are not modelled.
- Provider errors (`APIRequestError`, `PyOWMError`) and their mapping to HTTP errors through `json.loads` (controllers/user.py:160-165): foreign library behaviour.
- `print` logging in the controller: output only.
- bcrypt hashing (controllers/user.py:32): the hash of the password is a parameter of `CreateUser`.
- UserController.UserStore.CreateUser: the database generates the new user's UUID; the model takes it as a parameter that must not already be in use.
- `session.commit` and transactions: every update takes effect at once, and concurrent requests are not modelled.
- `get_user` and `get_user_weather`: they are outside the modelled core. They read the same tables, and the weather call is a provider request.
- The pydantic constraints on the user name (strip, lower-case, length 3 to 15) in models/dto/user.py and the FastAPI routes in main.py and routes/users.py: library behaviour and wiring.
