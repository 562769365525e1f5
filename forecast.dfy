/**
  The best-day scoring engine: group forecast samples by date, keep the days
  whose every sample meets the user's thresholds, score each kept day by a
  weighted sum of its field averages and return the date with the smallest
  score.

  The specification is given by pure functions (Dates, DaySamples, DayValid,
  DayScore, ValidScores, Best, BestDay); the engine itself is the method
  ForecastBestDay, which fills the ordered dictionaries step by step as the
  source does and is proved to return BestDay.
*/
module Forecast {
  import opened Wrappers
  import opened Models

  /** The calendar date of a sample, as the string the source keys on. */
  type Date = string

  /** One 3-hourly forecast reading. A field is None when the provider
      gave no value for it. */
  datatype Weather = Weather(
    date: Date,
    temp: Option<real>,
    clouds: Option<real>,
    windSpeed: Option<real>,
    rain3h: Option<real>,
    snow3h: Option<real>)

  /** The five averaged fields, in the order of the weights table. */
  datatype Field = Temp | Cloud | Wind | Rain | Snow

  /** The fixed weights of the score. */
  function Weight(f: Field): (w: real)
    ensures 0.0 < w < 1.0
  {
    match f
    case Temp => 0.1
    case Cloud => 0.2
    case Wind => 0.3
    case Rain => 0.4
    case Snow => 0.5
  }

  // ---------------------------------------------------------------------
  // Truthiness, checks and extractors
  // ---------------------------------------------------------------------

  /** Python truthiness of an optional number: present and non-zero. */
  predicate Truthy(v: Option<real>) {
    v.Some? && v.value != 0.0
  }

  /** Temperature check: an absent or zero temperature passes; otherwise
      each bound that is set (tested with `is not None`, so 0 counts)
      constrains it inclusively. */
  predicate TemperatureCheck(w: Weather, tempMin: Option<real>, tempMax: Option<real>)
    ensures w.temp.None? || w.temp.value == 0.0 ==> TemperatureCheck(w, tempMin, tempMax)
    ensures w.temp.Some? && w.temp.value != 0.0 ==>
      (TemperatureCheck(w, tempMin, tempMax) <==>
        (tempMin.None? || tempMin.value <= w.temp.value) &&
        (tempMax.None? || w.temp.value <= tempMax.value))
  {
    if Truthy(w.temp) then
      var t := w.temp.value;
      if tempMin.Some? && tempMax.None? then t >= tempMin.value
      else if tempMin.None? && tempMax.Some? then t <= tempMax.value
      else if tempMin.Some? && tempMax.Some? then tempMin.value <= t <= tempMax.value
      else true
    else
      true
  }

  /** The shared shape of the cloud, wind, rain and snow checks: both the
      reading and the limit must be truthy for the limit to apply. */
  predicate UpperBoundCheck(reading: Option<real>, limit: Option<real>)
  {
    if Truthy(reading) && Truthy(limit) then reading.value <= limit.value else true
  }

  predicate CloudCheck(w: Weather, maxCloudiness: Option<real>)
    ensures CloudCheck(w, maxCloudiness) <==>
      w.clouds.None? || w.clouds.value == 0.0 || maxCloudiness.None? || maxCloudiness.value == 0.0
      || w.clouds.value <= maxCloudiness.value
  {
    UpperBoundCheck(w.clouds, maxCloudiness)
  }

  predicate WindCheck(w: Weather, maxWindSpeed: Option<real>)
    ensures WindCheck(w, maxWindSpeed) <==>
      w.windSpeed.None? || w.windSpeed.value == 0.0 || maxWindSpeed.None? || maxWindSpeed.value == 0.0
      || w.windSpeed.value <= maxWindSpeed.value
  {
    UpperBoundCheck(w.windSpeed, maxWindSpeed)
  }

  /** Compares the 3-hour rain volume against whatever limit it is given. */
  predicate RainCheck(w: Weather, maxVolume: Option<real>)
    ensures RainCheck(w, maxVolume) <==>
      w.rain3h.None? || w.rain3h.value == 0.0 || maxVolume.None? || maxVolume.value == 0.0
      || w.rain3h.value <= maxVolume.value
  {
    UpperBoundCheck(w.rain3h, maxVolume)
  }

  /** The snow check as written; the engine never calls it. */
  predicate SnowCheck(w: Weather, maxSnowVolume: Option<real>)
    ensures SnowCheck(w, maxSnowVolume) <==>
      w.snow3h.None? || w.snow3h.value == 0.0 || maxSnowVolume.None? || maxSnowVolume.value == 0.0
      || w.snow3h.value <= maxSnowVolume.value
  {
    UpperBoundCheck(w.snow3h, maxSnowVolume)
  }

  /** A sample passes when all five checks the engine runs pass. The fifth
      one is the RAIN check against the SNOW limit, as in the engine. */
  predicate SamplePasses(w: Weather, p: Preference) {
    && TemperatureCheck(w, p.tempMin, p.tempMax)
    && CloudCheck(w, p.maxCloudiness)
    && WindCheck(w, p.maxWindSpeed)
    && RainCheck(w, p.maxRainVolume)
    && RainCheck(w, p.maxSnowVolume)
  }

  /** The value a field contributes to the totals: the reading when it is
      truthy, 0 otherwise. */
  function Reading(w: Weather, f: Field): (r: real)
    ensures r != 0.0 ==> FieldOf(w, f) == Some(r)
    ensures FieldOf(w, f).Some? && FieldOf(w, f).value != 0.0 ==> r == FieldOf(w, f).value
  {
    var v := FieldOf(w, f);
    if Truthy(v) then v.value else 0.0
  }

  /** Selects the raw optional reading of a field. */
  function FieldOf(w: Weather, f: Field): Option<real> {
    match f
    case Temp => w.temp
    case Cloud => w.clouds
    case Wind => w.windSpeed
    case Rain => w.rain3h
    case Snow => w.snow3h
  }

  // ---------------------------------------------------------------------
  // Specification of the engine
  // ---------------------------------------------------------------------

  /** The distinct dates of the samples in first-seen order. */
  function Dates(ws: seq<Weather>): seq<Date>
  {
    if ws == [] then []
    else
      var ds := Dates(ws[..|ws| - 1]);
      var d := ws[|ws| - 1].date;
      if d in ds then ds else ds + [d]
  }

  /** The samples of date d, in source order. */
  function DaySamples(ws: seq<Weather>, d: Date): seq<Weather>
  {
    if ws == [] then []
    else
      var last := ws[|ws| - 1];
      DaySamples(ws[..|ws| - 1], d) + (if last.date == d then [last] else [])
  }

  /** A day is valid when every one of its samples passes. */
  predicate DayValid(g: seq<Weather>, p: Preference) {
    forall i :: 0 <= i < |g| ==> SamplePasses(g[i], p)
  }

  /** The sum of a field's readings over a group. */
  function Total(g: seq<Weather>, f: Field): real
  {
    if g == [] then 0.0 else Total(g[..|g| - 1], f) + Reading(g[|g| - 1], f)
  }

  /** A field's average over a group (0 for an empty group). */
  function Average(g: seq<Weather>, f: Field): real
  {
    if |g| > 0 then Total(g, f) / (|g| as real) else 0.0
  }

  /** The weighted sum of the five averages. */
  function DayScore(g: seq<Weather>): real
  {
    Weight(Temp) * Average(g, Temp) + Weight(Cloud) * Average(g, Cloud)
    + Weight(Wind) * Average(g, Wind) + Weight(Rain) * Average(g, Rain)
    + Weight(Snow) * Average(g, Snow)
  }

  /** A valid day and its score. */
  datatype ScoredDay = ScoredDay(date: Date, score: real)

  /** The grouping as a dictionary: each date that occurs, with its samples. */
  function Groups(ws: seq<Weather>): map<Date, seq<Weather>> {
    map d | d in Dates(ws) :: DaySamples(ws, d)
  }

  /** Every date of `dates` has a group. */
  predicate Covers(dates: seq<Date>, groups: map<Date, seq<Weather>>) {
    forall d :: d in dates ==> d in groups
  }

  /** The valid days among `dates`, in that order, with their scores. */
  function ValidScores(dates: seq<Date>, groups: map<Date, seq<Weather>>, p: Preference): seq<ScoredDay>
    requires Covers(dates, groups)
  {
    if dates == [] then []
    else
      var rest := ValidScores(dates[..|dates| - 1], groups, p);
      var d := dates[|dates| - 1];
      var g := groups[d];
      if DayValid(g, p) then rest + [ScoredDay(d, DayScore(g))] else rest
  }

  /** The running minimum of a left-to-right scan: a later day replaces the
      current best only when its score is strictly smaller. */
  function Best(vs: seq<ScoredDay>): Option<ScoredDay>
  {
    if vs == [] then None
    else
      var b := Best(vs[..|vs| - 1]);
      var x := vs[|vs| - 1];
      if b.None? || x.score < b.value.score then Some(x) else b
  }

  function DateOf(b: Option<ScoredDay>): Option<Date> {
    if b.None? then None else Some(b.value.date)
  }

  /** The engine's result, as a function of the samples and the preference. */
  function BestDay(ws: seq<Weather>, p: Preference): Option<Date> {
    DateOf(Best(ValidScores(Dates(ws), Groups(ws), p)))
  }

  /** An ordered dictionary given as its key order and its map agrees with
      a sequence of scored days. */
  ghost predicate Tracks(order: seq<Date>, dict: map<Date, real>, vs: seq<ScoredDay>) {
    && |order| == |vs|
    && (forall j :: 0 <= j < |vs| ==> order[j] == vs[j].date && order[j] in dict && dict[order[j]] == vs[j].score)
    && (forall d :: d in dict <==> d in order)
  }

  ghost predicate Distinct(ds: seq<Date>) {
    forall i, j :: 0 <= i < j < |ds| ==> ds[i] != ds[j]
  }

  lemma {:induction false} DatesDistinct(ws: seq<Weather>)
    ensures Distinct(Dates(ws))
  {
    if ws != [] {
      DatesDistinct(ws[..|ws| - 1]);
    }
  }

  // ---------------------------------------------------------------------
  // The engine
  // ---------------------------------------------------------------------

  /** Groups the samples by date into an ordered dictionary, given as its
      key order and its map; a date keeps the position of its first sample. */
  method GroupByDate(weathers: seq<Weather>) returns (order: seq<Date>, grouped: map<Date, seq<Weather>>)
    ensures order == Dates(weathers)
    ensures grouped == Groups(weathers)
  {
    order, grouped := [], map[];
    for i := 0 to |weathers|
      invariant order == Dates(weathers[..i])
      invariant forall d :: d in grouped <==> d in order
      invariant forall d :: d in grouped ==> grouped[d] == DaySamples(weathers[..i], d)
      invariant forall d :: d !in grouped ==> DaySamples(weathers[..i], d) == []
    {
      var weather := weathers[i];
      var day := weather.date;
      var list := if day in grouped then grouped[day] else [];
      list := list + [weather];
      if day !in grouped {
        order := order + [day];
      }
      grouped := grouped[day := list];
      assert weathers[..i + 1][..i] == weathers[..i];
    }
    assert weathers[..|weathers|] == weathers;
    assert grouped == Groups(weathers);
  }

  /** Checks every sample of one day, stopping at the first that fails, and
      accumulates the five totals; a valid day gets its weighted sum. */
  method ScoreDay(weathers: seq<Weather>, p: Preference) returns (valid: bool, weightedSum: real)
    ensures valid <==> DayValid(weathers, p)
    ensures valid ==> weightedSum == DayScore(weathers)
  {
    var count := |weathers|;
    valid := true;
    var totalTemp, totalCloudiness, totalWindSpeed, totalRainVolume, totalSnowVolume := 0.0, 0.0, 0.0, 0.0, 0.0;
    var j := 0;
    while j < count
      invariant 0 <= j <= count
      invariant valid && DayValid(weathers[..j], p)
      invariant totalTemp == Total(weathers[..j], Temp)
      invariant totalCloudiness == Total(weathers[..j], Cloud)
      invariant totalWindSpeed == Total(weathers[..j], Wind)
      invariant totalRainVolume == Total(weathers[..j], Rain)
      invariant totalSnowVolume == Total(weathers[..j], Snow)
    {
      var weather := weathers[j];
      var tempPassed := TemperatureCheck(weather, p.tempMin, p.tempMax);
      var cloudPassed := CloudCheck(weather, p.maxCloudiness);
      var windPassed := WindCheck(weather, p.maxWindSpeed);
      var rainPassed := RainCheck(weather, p.maxRainVolume);
      var snowPassed := RainCheck(weather, p.maxSnowVolume);

      assert weathers[..j + 1][..j] == weathers[..j];
      totalTemp := totalTemp + Reading(weather, Temp);
      totalCloudiness := totalCloudiness + Reading(weather, Cloud);
      totalWindSpeed := totalWindSpeed + Reading(weather, Wind);
      totalRainVolume := totalRainVolume + Reading(weather, Rain);
      totalSnowVolume := totalSnowVolume + Reading(weather, Snow);

      valid := tempPassed && cloudPassed && windPassed && rainPassed && snowPassed;
      if !valid {
        break;
      }
      j := j + 1;
    }
    if valid {
      assert weathers[..j] == weathers;
      var average := map[
        Temp := if count > 0 then totalTemp / (count as real) else 0.0,
        Cloud := if count > 0 then totalCloudiness / (count as real) else 0.0,
        Wind := if count > 0 then totalWindSpeed / (count as real) else 0.0,
        Rain := if count > 0 then totalRainVolume / (count as real) else 0.0,
        Snow := if count > 0 then totalSnowVolume / (count as real) else 0.0];
      weightedSum := Weight(Temp) * average[Temp] + Weight(Cloud) * average[Cloud]
        + Weight(Wind) * average[Wind] + Weight(Rain) * average[Rain]
        + Weight(Snow) * average[Snow];
    } else {
      weightedSum := 0.0;
    }
  }

  /** Scores every grouped date in order and records the valid ones in a
      second ordered dictionary. */
  method ScoreDays(order: seq<Date>, grouped: map<Date, seq<Weather>>, p: Preference)
    returns (scoredOrder: seq<Date>, weightedSums: map<Date, real>)
    requires Distinct(order)
    requires Covers(order, grouped)
    ensures Tracks(scoredOrder, weightedSums, ValidScores(order, grouped, p))
  {
    scoredOrder, weightedSums := [], map[];
    for k := 0 to |order|
      invariant Tracks(scoredOrder, weightedSums, ValidScores(order[..k], grouped, p))
      invariant forall d :: d in weightedSums ==> d in order[..k]
    {
      var date := order[k];
      assert order[..k + 1][..k] == order[..k];
      assert order[..k + 1][k] == date;
      var valid, weightedSum := ScoreDay(grouped[date], p);
      if valid {
        assert date !in weightedSums;
        scoredOrder := scoredOrder + [date];
        weightedSums := weightedSums[date := weightedSum];
      }
    }
    assert order[..|order|] == order;
  }

  /** Scans the scored days in order, keeping the first date of the
      strictly smallest weighted sum. */
  method PickBest(scoredOrder: seq<Date>, weightedSums: map<Date, real>, ghost vs: seq<ScoredDay>)
    returns (bestDay: Option<Date>)
    requires Tracks(scoredOrder, weightedSums, vs)
    ensures bestDay == DateOf(Best(vs))
  {
    bestDay := None;
    var smallest: Option<real> := None;
    for j := 0 to |scoredOrder|
      invariant bestDay.None? <==> smallest.None?
      invariant bestDay == DateOf(Best(vs[..j]))
      invariant smallest.Some? ==> smallest.value == Best(vs[..j]).value.score
    {
      assert vs[..j + 1][..j] == vs[..j];
      var date := scoredOrder[j];
      var weightedSum := weightedSums[date];
      if smallest.None? || weightedSum < smallest.value {
        bestDay := Some(date);
        smallest := Some(weightedSum);
      }
    }
    assert vs[..|vs|] == vs;
  }

  /** The best-day engine over an already fetched forecast. */
  method ForecastBestDay(weathers: seq<Weather>, p: Preference) returns (bestDay: Option<Date>)
    ensures bestDay == BestDay(weathers, p)
  {
    var order, grouped := GroupByDate(weathers);
    DatesDistinct(weathers);
    var scoredOrder, weightedSums := ScoreDays(order, grouped, p);
    bestDay := PickBest(scoredOrder, weightedSums, ValidScores(order, grouped, p));
  }
}
