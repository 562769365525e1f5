/**
  What the best-day engine promises, proved about its specification
  functions: how samples are grouped, which days are valid, how a day is
  scored and which day is picked.
*/
module ForecastProperties {
  import opened Wrappers
  import opened Models
  import opened Forecast

  // ---------------------------------------------------------------------
  // Grouping
  // ---------------------------------------------------------------------

  /** Some sample carries date d. */
  predicate Occurs(ws: seq<Weather>, d: Date) {
    exists k :: 0 <= k < |ws| && ws[k].date == d
  }

  /** The position of the first sample of date d. */
  function FirstIndex(ws: seq<Weather>, d: Date): (i: nat)
    requires Occurs(ws, d)
    ensures i < |ws| && ws[i].date == d
    ensures forall k :: 0 <= k < i ==> ws[k].date != d
  {
    var n := |ws| - 1;
    if Occurs(ws[..n], d) then FirstIndex(ws[..n], d)
    else
      assert forall k :: 0 <= k < n ==> ws[..n][k] == ws[k];
      n
  }

  /** The grouping keys are exactly the dates that occur. */
  lemma {:induction false} DatesMembership(ws: seq<Weather>, d: Date)
    ensures d in Dates(ws) <==> Occurs(ws, d)
  {
    if ws != [] {
      var n := |ws| - 1;
      DatesMembership(ws[..n], d);
      assert Occurs(ws, d) <==> Occurs(ws[..n], d) || ws[n].date == d by {
        if Occurs(ws, d) {
          var k :| 0 <= k < |ws| && ws[k].date == d;
          if k < n { assert ws[..n][k] == ws[k]; }
        }
        if Occurs(ws[..n], d) {
          var k :| 0 <= k < n && ws[..n][k].date == d;
          assert ws[k] == ws[..n][k];
        }
      }
    }
  }

  /** The dates are listed in the order of their first samples. */
  lemma {:induction false} DatesInFirstSeenOrder(ws: seq<Weather>)
    ensures forall i :: 0 <= i < |Dates(ws)| ==> Occurs(ws, Dates(ws)[i])
    ensures forall i, j :: 0 <= i < j < |Dates(ws)| ==>
      FirstIndex(ws, Dates(ws)[i]) < FirstIndex(ws, Dates(ws)[j])
  {
    forall d | d in Dates(ws) ensures Occurs(ws, d) { DatesMembership(ws, d); }
    if ws != [] {
      var n := |ws| - 1;
      var prefix := ws[..n];
      var x := ws[n];
      DatesInFirstSeenOrder(prefix);
      var ds := Dates(prefix);
      forall d | d in ds ensures FirstIndex(ws, d) == FirstIndex(prefix, d) {
        DatesMembership(prefix, d);
      }
      if x.date !in ds {
        DatesMembership(prefix, x.date);
        assert FirstIndex(ws, x.date) == n;
      }
    }
  }

  /** A group holds exactly the samples of its date. */
  lemma {:induction false} DaySamplesMembers(ws: seq<Weather>, d: Date, x: Weather)
    ensures x in DaySamples(ws, d) <==> x in ws && x.date == d
  {
    if ws != [] {
      var n := |ws| - 1;
      DaySamplesMembers(ws[..n], d, x);
      assert ws == ws[..n] + [ws[n]];
    }
  }

  /** Grouping distributes over concatenation, so source order is kept. */
  lemma {:induction false} DaySamplesAppend(a: seq<Weather>, b: seq<Weather>, d: Date)
    ensures DaySamples(a + b, d) == DaySamples(a, d) + DaySamples(b, d)
  {
    if b == [] {
      assert a + b == a;
    } else {
      var n := |b| - 1;
      DaySamplesAppend(a, b[..n], d);
      assert (a + b)[..|a + b| - 1] == a + b[..n];
    }
  }

  /** A date that does not occur has no samples; one that does has some. */
  lemma {:induction false} DaySamplesNonEmpty(ws: seq<Weather>, d: Date)
    ensures |DaySamples(ws, d)| > 0 <==> d in Dates(ws)
  {
    if ws != [] {
      DaySamplesNonEmpty(ws[..|ws| - 1], d);
    }
  }

  /** The total size of the groups of `ds`. */
  function SizeSum(ds: seq<Date>, ws: seq<Weather>): nat
  {
    if ds == [] then 0 else SizeSum(ds[..|ds| - 1], ws) + |DaySamples(ws, ds[|ds| - 1])|
  }

  lemma {:induction false} SizeSumSnoc(ds: seq<Date>, ws: seq<Weather>, x: Weather)
    requires Distinct(ds)
    ensures SizeSum(ds, ws + [x]) == SizeSum(ds, ws) + (if x.date in ds then 1 else 0)
  {
    if ds != [] {
      var n := |ds| - 1;
      SizeSumSnoc(ds[..n], ws, x);
      assert (ws + [x])[..|ws|] == ws;
      assert ds == ds[..n] + [ds[n]];
    }
  }

  /** Every sample lands in exactly one group. */
  lemma {:induction false} GroupSizesSum(ws: seq<Weather>)
    ensures SizeSum(Dates(ws), ws) == |ws|
  {
    if ws != [] {
      var n := |ws| - 1;
      var prefix, x := ws[..n], ws[n];
      assert ws == prefix + [x];
      GroupSizesSum(prefix);
      DatesDistinct(prefix);
      SizeSumSnoc(Dates(prefix), prefix, x);
      if x.date !in Dates(prefix) {
        DaySamplesNonEmpty(prefix, x.date);
        assert Dates(ws) == Dates(prefix) + [x.date];
        assert Dates(ws)[..|Dates(ws)| - 1] == Dates(prefix);
      }
    }
  }

  // ---------------------------------------------------------------------
  // Checks
  // ---------------------------------------------------------------------

  /** Every check passes when no threshold is set. */
  predicate NoThresholds(p: Preference) {
    p.tempMin.None? && p.tempMax.None? && p.maxCloudiness.None? && p.maxWindSpeed.None?
    && p.maxRainVolume.None? && p.maxSnowVolume.None?
  }

  /** The snow reading never influences whether a sample passes. */
  lemma SnowNeverChecked(w: Weather, snow: Option<real>, p: Preference)
    ensures SamplePasses(w.(snow3h := snow), p) == SamplePasses(w, p)
  {
  }

  /** The fifth check rejects rain above the snow limit even without snow. */
  lemma RainMeasuredAgainstSnowLimit(w: Weather, p: Preference)
    requires w.snow3h.None?
    requires w.rain3h.Some? && p.maxSnowVolume.Some? && p.maxSnowVolume.value > 0.0
    requires w.rain3h.value > p.maxSnowVolume.value
    ensures !SamplePasses(w, p)
  {
  }

  /** A temperature bound of 0 is enforced, unlike a limit of 0. */
  lemma ZeroTemperatureBoundEnforced(w: Weather, p: Preference)
    requires w.temp == Some(-5.0) && p.tempMin == Some(0.0)
    ensures !SamplePasses(w, p)
  {
    assert Truthy(w.temp) && w.temp.value == -5.0;
  }

  /** A limit of 0 means "no limit". */
  function ZeroAsUnset(v: Option<real>): Option<real> {
    if v == Some(0.0) then None else v
  }

  /** Two preferences that give every sample the same verdict pick the same day. */
  lemma {:induction false} SameVerdictsSameScores(dates: seq<Date>, groups: map<Date, seq<Weather>>, p: Preference, q: Preference)
    requires Covers(dates, groups)
    requires forall w :: SamplePasses(w, p) == SamplePasses(w, q)
    ensures ValidScores(dates, groups, p) == ValidScores(dates, groups, q)
  {
    if dates != [] {
      SameVerdictsSameScores(dates[..|dates| - 1], groups, p, q);
      var g := groups[dates[|dates| - 1]];
      assert DayValid(g, p) == DayValid(g, q);
    }
  }

  /** A cloud, wind, rain or snow limit of 0 disables its check entirely. */
  lemma ZeroLimitsDisableChecks(ws: seq<Weather>, p: Preference)
    ensures BestDay(ws, p) == BestDay(ws, p.(maxCloudiness := ZeroAsUnset(p.maxCloudiness),
                                             maxWindSpeed := ZeroAsUnset(p.maxWindSpeed),
                                             maxRainVolume := ZeroAsUnset(p.maxRainVolume),
                                             maxSnowVolume := ZeroAsUnset(p.maxSnowVolume)))
  {
    var q := p.(maxCloudiness := ZeroAsUnset(p.maxCloudiness),
                maxWindSpeed := ZeroAsUnset(p.maxWindSpeed),
                maxRainVolume := ZeroAsUnset(p.maxRainVolume),
                maxSnowVolume := ZeroAsUnset(p.maxSnowVolume));
    SameVerdictsSameScores(Dates(ws), Groups(ws), p, q);
  }

  // ---------------------------------------------------------------------
  // Scoring
  // ---------------------------------------------------------------------

  /** The weighted sum of one sample's readings. */
  function SampleScore(w: Weather): real {
    Weight(Temp) * Reading(w, Temp) + Weight(Cloud) * Reading(w, Cloud) + Weight(Wind) * Reading(w, Wind)
    + Weight(Rain) * Reading(w, Rain) + Weight(Snow) * Reading(w, Snow)
  }

  function SumOfSampleScores(g: seq<Weather>): real {
    if g == [] then 0.0 else SumOfSampleScores(g[..|g| - 1]) + SampleScore(g[|g| - 1])
  }

  lemma {:induction false} SumOfSampleScoresByField(g: seq<Weather>)
    ensures SumOfSampleScores(g) ==
      Weight(Temp) * Total(g, Temp) + Weight(Cloud) * Total(g, Cloud) + Weight(Wind) * Total(g, Wind)
      + Weight(Rain) * Total(g, Rain) + Weight(Snow) * Total(g, Snow)
  {
    if g != [] {
      SumOfSampleScoresByField(g[..|g| - 1]);
    }
  }

  /** A day's score is the mean of its samples' weighted readings, where a
      missing or zero reading contributes 0 (snow included). */
  lemma DayScoreIsMeanOfSampleScores(g: seq<Weather>)
    requires |g| > 0
    ensures DayScore(g) == SumOfSampleScores(g) / (|g| as real)
  {
    SumOfSampleScoresByField(g);
    var n := |g| as real;
    WeightedMeanOfTotals(Total(g, Temp), Total(g, Cloud), Total(g, Wind), Total(g, Rain), Total(g, Snow), n);
  }

  /** Dividing each total by n before weighting is dividing the weighted
      sum by n. */
  lemma WeightedMeanOfTotals(t: real, c: real, w: real, r: real, s: real, n: real)
    requires n > 0.0
    ensures 0.1 * (t / n) + 0.2 * (c / n) + 0.3 * (w / n) + 0.4 * (r / n) + 0.5 * (s / n)
         == (0.1 * t + 0.2 * c + 0.3 * w + 0.4 * r + 0.5 * s) / n
  {
    var q := (0.1 * t + 0.2 * c + 0.3 * w + 0.4 * r + 0.5 * s) / n;
    assert q * n == 0.1 * t + 0.2 * c + 0.3 * w + 0.4 * r + 0.5 * s;
    assert (t / n) * n == t && (c / n) * n == c && (w / n) * n == w && (r / n) * n == r && (s / n) * n == s;
  }

  // ---------------------------------------------------------------------
  // Selection
  // ---------------------------------------------------------------------


  ghost predicate ValidDate(groups: map<Date, seq<Weather>>, p: Preference, d: Date) {
    d in groups && DayValid(groups[d], p)
  }

  function ScoreOf(groups: map<Date, seq<Weather>>, d: Date): real {
    if d in groups then DayScore(groups[d]) else 0.0
  }

  /** Position i of `dates` holds a valid date whose score is no larger
      than any valid date's and strictly below every earlier valid date's. */
  ghost predicate EarliestMinimumAt(dates: seq<Date>, groups: map<Date, seq<Weather>>, p: Preference, i: int) {
    && 0 <= i < |dates|
    && ValidDate(groups, p, dates[i])
    && (forall j :: 0 <= j < |dates| && ValidDate(groups, p, dates[j]) ==> ScoreOf(groups, dates[i]) <= ScoreOf(groups, dates[j]))
    && (forall j :: 0 <= j < i && ValidDate(groups, p, dates[j]) ==> ScoreOf(groups, dates[i]) < ScoreOf(groups, dates[j]))
  }

  /** The scan finds nothing only on an empty sequence. */
  lemma {:induction false} BestNoneIff(vs: seq<ScoredDay>)
    ensures Best(vs).None? <==> vs == []
  {
    if vs != [] {
      BestNoneIff(vs[..|vs| - 1]);
    }
  }

  /** No date of `dates` is valid iff none is scored. */
  lemma {:induction false} ValidScoresEmptyIff(dates: seq<Date>, groups: map<Date, seq<Weather>>, p: Preference)
    requires Covers(dates, groups)
    ensures ValidScores(dates, groups, p) == [] <==> forall i :: 0 <= i < |dates| ==> !ValidDate(groups, p, dates[i])
  {
    if dates != [] {
      var n := |dates| - 1;
      ValidScoresEmptyIff(dates[..n], groups, p);
      assert forall j :: 0 <= j < n ==> dates[..n][j] == dates[j];
    }
  }

  lemma ValidScoresSnoc(dates: seq<Date>, groups: map<Date, seq<Weather>>, p: Preference)
    requires Covers(dates, groups)
    requires |dates| > 0
    ensures var d := dates[|dates| - 1];
      ValidScores(dates, groups, p) == ValidScores(dates[..|dates| - 1], groups, p)
        + (if ValidDate(groups, p, d) then [ScoredDay(d, ScoreOf(groups, d))] else [])
  {
  }

  lemma BestSnoc(vs: seq<ScoredDay>, x: ScoredDay)
    ensures Best(vs + [x]) == if Best(vs).None? || x.score < Best(vs).value.score then Some(x) else Best(vs)
  {
    assert (vs + [x])[..|vs|] == vs;
  }

  /** The scan over the valid days of `dates` finds nothing iff no date is
      valid, and otherwise the earliest date of smallest score. */
  lemma BestOfValidScores(dates: seq<Date>, groups: map<Date, seq<Weather>>, p: Preference)
    requires Covers(dates, groups)
    ensures Best(ValidScores(dates, groups, p)).None? <==>
      forall i :: 0 <= i < |dates| ==> !ValidDate(groups, p, dates[i])
    ensures Best(ValidScores(dates, groups, p)).Some? ==>
      exists i :: EarliestMinimumAt(dates, groups, p, i)
        && dates[i] == Best(ValidScores(dates, groups, p)).value.date
        && Best(ValidScores(dates, groups, p)).value.score == ScoreOf(groups, dates[i])
  {
    BestNoneIff(ValidScores(dates, groups, p));
    ValidScoresEmptyIff(dates, groups, p);
    if Best(ValidScores(dates, groups, p)).Some? {
      BestIsEarliestMinimum(dates, groups, p);
    }
  }

  lemma {:induction false} BestIsEarliestMinimum(dates: seq<Date>, groups: map<Date, seq<Weather>>, p: Preference)
    requires Covers(dates, groups)
    requires Best(ValidScores(dates, groups, p)).Some?
    ensures exists i ::
      && EarliestMinimumAt(dates, groups, p, i)
      && dates[i] == Best(ValidScores(dates, groups, p)).value.date
      && Best(ValidScores(dates, groups, p)).value.score == ScoreOf(groups, dates[i])
  {
    BestNoneIff(ValidScores(dates, groups, p));
    var prefix := dates[..|dates| - 1];
    if Best(ValidScores(prefix, groups, p)).Some? {
      BestIsEarliestMinimum(prefix, groups, p);
      var i :| && EarliestMinimumAt(prefix, groups, p, i)
               && prefix[i] == Best(ValidScores(prefix, groups, p)).value.date
               && Best(ValidScores(prefix, groups, p)).value.score == ScoreOf(groups, prefix[i]);
      ExtendMinimum(dates, groups, p, i);
    } else {
      FirstValidIsMinimum(dates, groups, p);
    }
  }

  /** The scan step when the prefix already has a best day at position i. */
  lemma ExtendMinimum(dates: seq<Date>, groups: map<Date, seq<Weather>>, p: Preference, i: int)
    requires Covers(dates, groups)
    requires |dates| > 0
    requires EarliestMinimumAt(dates[..|dates| - 1], groups, p, i)
    requires Best(ValidScores(dates[..|dates| - 1], groups, p)) == Some(ScoredDay(dates[i], ScoreOf(groups, dates[i])))
    ensures exists k ::
      && EarliestMinimumAt(dates, groups, p, k)
      && Best(ValidScores(dates, groups, p)) == Some(ScoredDay(dates[k], ScoreOf(groups, dates[k])))
  {
    var n := |dates| - 1;
    var d := dates[n];
    var vs' := ValidScores(dates[..n], groups, p);
    ValidScoresSnoc(dates, groups, p);
    StepKeepsMinimum(dates, groups, p, i);
    if ValidDate(groups, p, d) {
      BestSnoc(vs', ScoredDay(d, ScoreOf(groups, d)));
      if ScoreOf(groups, d) < ScoreOf(groups, dates[i]) {
        assert EarliestMinimumAt(dates, groups, p, n);
      } else {
        assert EarliestMinimumAt(dates, groups, p, i);
      }
    } else {
      assert EarliestMinimumAt(dates, groups, p, i);
    }
  }

  /** The scan step when no earlier date was valid. */
  lemma FirstValidIsMinimum(dates: seq<Date>, groups: map<Date, seq<Weather>>, p: Preference)
    requires Covers(dates, groups)
    requires |dates| > 0
    requires Best(ValidScores(dates[..|dates| - 1], groups, p)).None?
    requires Best(ValidScores(dates, groups, p)).Some?
    ensures var n := |dates| - 1;
      && EarliestMinimumAt(dates, groups, p, n)
      && Best(ValidScores(dates, groups, p)) == Some(ScoredDay(dates[n], ScoreOf(groups, dates[n])))
  {
    var n := |dates| - 1;
    var prefix := dates[..n];
    var vs' := ValidScores(prefix, groups, p);
    BestNoneIff(vs');
    ValidScoresEmptyIff(prefix, groups, p);
    ValidScoresSnoc(dates, groups, p);
    assert forall j :: 0 <= j < n ==> prefix[j] == dates[j];
    assert ValidDate(groups, p, dates[n]);
    BestSnoc(vs', ScoredDay(dates[n], ScoreOf(groups, dates[n])));
  }

  /** Extending `dates` by one date keeps position i the earliest minimum
      unless the new date is valid and scores strictly lower. */
  lemma StepKeepsMinimum(dates: seq<Date>, groups: map<Date, seq<Weather>>, p: Preference, i: int)
    requires |dates| > 0 && EarliestMinimumAt(dates[..|dates| - 1], groups, p, i)
    ensures var d := dates[|dates| - 1];
      (ValidDate(groups, p, d) && ScoreOf(groups, d) < ScoreOf(groups, dates[i])) || EarliestMinimumAt(dates, groups, p, i)
    ensures var d := dates[|dates| - 1];
      ValidDate(groups, p, d) && ScoreOf(groups, d) < ScoreOf(groups, dates[i]) ==> EarliestMinimumAt(dates, groups, p, |dates| - 1)
  {
    var n := |dates| - 1;
    assert forall j :: 0 <= j < n ==> dates[..n][j] == dates[j];
  }

  /** Every sample's date has a group, and that group is its day's samples. */
  lemma GroupOfEverySample(ws: seq<Weather>)
    ensures Covers(Dates(ws), Groups(ws))
    ensures forall k :: 0 <= k < |ws| ==>
      ws[k].date in Dates(ws) && ws[k].date in Groups(ws) && Groups(ws)[ws[k].date] == DaySamples(ws, ws[k].date)
  {
    forall k | 0 <= k < |ws| ensures ws[k].date in Dates(ws) {
      DatesMembership(ws, ws[k].date);
    }
  }

  /** No best day iff no day is valid (in particular for no samples). */
  lemma BestDayNoneIff(ws: seq<Weather>, p: Preference)
    ensures BestDay(ws, p).None? <==>
      forall k :: 0 <= k < |ws| ==> !DayValid(DaySamples(ws, ws[k].date), p)
  {
    var ds, groups := Dates(ws), Groups(ws);
    GroupOfEverySample(ws);
    BestOfValidScores(ds, groups, p);
    DatesInFirstSeenOrder(ws);
    forall i | 0 <= i < |ds| ensures exists k :: 0 <= k < |ws| && ws[k].date == ds[i] { }
  }

  /** The best day, read on the grouping dictionary: the earliest date of
      smallest score among the valid ones. */
  lemma BestDayInGroups(ws: seq<Weather>, p: Preference, d: Date) returns (i: nat)
    requires BestDay(ws, p) == Some(d)
    ensures Covers(Dates(ws), Groups(ws))
    ensures EarliestMinimumAt(Dates(ws), Groups(ws), p, i) && Dates(ws)[i] == d
  {
    var ds, groups := Dates(ws), Groups(ws);
    BestOfValidScores(ds, groups, p);
    var b := Best(ValidScores(ds, groups, p)).value;
    i :| EarliestMinimumAt(ds, groups, p, i) && ds[i] == b.date && b.score == ScoreOf(groups, ds[i]);
  }

  /** A sample that starts before the first sample of Dates(ws)[i] belongs
      to a date listed before position i. */
  lemma EarlierSampleEarlierDate(ws: seq<Weather>, i: nat, k: nat) returns (j: nat)
    requires i < |Dates(ws)|
    requires Occurs(ws, Dates(ws)[i]) && k < FirstIndex(ws, Dates(ws)[i])
    ensures j < i && Dates(ws)[j] == ws[k].date
  {
    var ds := Dates(ws);
    DatesMembership(ws, ws[k].date);
    DatesInFirstSeenOrder(ws);
    j :| 0 <= j < |ds| && ds[j] == ws[k].date;
    assert FirstIndex(ws, ds[j]) <= k < FirstIndex(ws, ds[i]);
  }

  /** The best day is a valid day whose score is no larger than any valid
      day's and strictly smaller than the score of every valid day that
      starts earlier in the forecast. */
  lemma BestDayIsEarliestMinimum(ws: seq<Weather>, p: Preference, d: Date)
    requires BestDay(ws, p) == Some(d)
    ensures Occurs(ws, d) && DayValid(DaySamples(ws, d), p)
    ensures forall k :: 0 <= k < |ws| && DayValid(DaySamples(ws, ws[k].date), p) ==>
      DayScore(DaySamples(ws, d)) <= DayScore(DaySamples(ws, ws[k].date))
    ensures forall k :: 0 <= k < FirstIndex(ws, d) && DayValid(DaySamples(ws, ws[k].date), p) ==>
      DayScore(DaySamples(ws, d)) < DayScore(DaySamples(ws, ws[k].date))
  {
    var ds, groups := Dates(ws), Groups(ws);
    var i := BestDayInGroups(ws, p, d);
    DatesMembership(ws, d);
    forall k | 0 <= k < |ws| && DayValid(DaySamples(ws, ws[k].date), p)
      ensures DayScore(DaySamples(ws, d)) <= DayScore(DaySamples(ws, ws[k].date))
    {
      DatesMembership(ws, ws[k].date);
      var j :| 0 <= j < |ds| && ds[j] == ws[k].date;
      assert ValidDate(groups, p, ds[j]);
    }
    forall k | 0 <= k < FirstIndex(ws, d) && DayValid(DaySamples(ws, ws[k].date), p)
      ensures DayScore(DaySamples(ws, d)) < DayScore(DaySamples(ws, ws[k].date))
    {
      var j := EarlierSampleEarlierDate(ws, i, k);
      assert ValidDate(groups, p, ds[j]);
    }
  }

  /** Of two valid days with equal scores, the later-starting one is never
      picked. */
  lemma TieGoesToEarlierDay(ws: seq<Weather>, p: Preference, a: Date, b: Date)
    requires Occurs(ws, a) && Occurs(ws, b) && FirstIndex(ws, a) < FirstIndex(ws, b)
    requires DayValid(DaySamples(ws, a), p)
    requires DayScore(DaySamples(ws, a)) == DayScore(DaySamples(ws, b))
    ensures BestDay(ws, p) != Some(b)
  {
    var k := FirstIndex(ws, a);
    assert ws[k].date == a;
    if BestDay(ws, p) == Some(b) {
      BestDayIsEarliestMinimum(ws, p, b);
    }
  }

  /** One failing sample keeps its whole day from being picked. */
  lemma FailingSampleExcludesDay(ws: seq<Weather>, p: Preference, k: nat)
    requires k < |ws| && !SamplePasses(ws[k], p)
    ensures BestDay(ws, p) != Some(ws[k].date)
  {
    var d := ws[k].date;
    DaySamplesMembers(ws, d, ws[k]);
    if BestDay(ws, p) == Some(d) {
      BestDayIsEarliestMinimum(ws, p, d);
    }
  }

  /** With no threshold set every day is valid, so there is a best day
      exactly when there are samples. */
  lemma UnsetThresholdsPickADay(ws: seq<Weather>, p: Preference)
    requires NoThresholds(p)
    ensures BestDay(ws, p).None? <==> ws == []
  {
    BestDayNoneIff(ws, p);
    if ws != [] {
      assert DayValid(DaySamples(ws, ws[0].date), p);
    }
  }

  // ---------------------------------------------------------------------
  // Worked example
  // ---------------------------------------------------------------------

  /** A one-sample day scores that sample's weighted readings. */
  lemma SingleSampleDayScore(w: Weather)
    ensures DayScore([w]) == SampleScore(w)
  {
    assert [w][..0] == [];
    forall f ensures Average([w], f) == Reading(w, f) {
      assert Total([w], f) == Reading(w, f);
    }
  }

  /** Two samples of two different dates form two one-sample groups. */
  lemma TwoDayGrouping(a: Weather, b: Weather)
    requires a.date != b.date
    ensures Dates([a, b]) == [a.date, b.date]
    ensures Groups([a, b]) == map[a.date := [a], b.date := [b]]
  {
    var ws := [a, b];
    assert ws[..1] == [a];
    assert [a][..0] == [];
    assert Dates([a]) == [a.date];
    assert DaySamples([a], a.date) == [a];
    assert DaySamples(ws, a.date) == [a];
    assert DaySamples([a], b.date) == [];
    assert DaySamples(ws, b.date) == [b];
  }

  /** Of two one-sample days that both pass, the second is picked only
      when it scores strictly lower. */
  lemma TwoDaysPickLower(a: Weather, b: Weather, p: Preference)
    requires a.date != b.date && SamplePasses(a, p) && SamplePasses(b, p)
    ensures BestDay([a, b], p) == if DayScore([b]) < DayScore([a]) then Some(b.date) else Some(a.date)
  {
    TwoDayGrouping(a, b);
    var x, y := ScoredDay(a.date, DayScore([a])), ScoredDay(b.date, DayScore([b]));
    TwoValidDays(a, b, p);
    BestOfTwo(x, y);
  }

  /** Both one-sample days are scored, in order. */
  lemma TwoValidDays(a: Weather, b: Weather, p: Preference)
    requires a.date != b.date && SamplePasses(a, p) && SamplePasses(b, p)
    ensures ValidScores([a.date, b.date], map[a.date := [a], b.date := [b]], p)
         == [ScoredDay(a.date, DayScore([a])), ScoredDay(b.date, DayScore([b]))]
  {
    var groups := map[a.date := [a], b.date := [b]];
    assert [a.date, b.date][..1] == [a.date];
    assert [a.date][..0] == [];
    assert ValidScores([a.date], groups, p) == [ScoredDay(a.date, DayScore([a]))];
  }

  /** The scan over two entries keeps the first unless the second is
      strictly smaller. */
  lemma BestOfTwo(x: ScoredDay, y: ScoredDay)
    ensures Best([x, y]) == if y.score < x.score then Some(y) else Some(x)
  {
    assert [x, y][..1] == [x];
    assert [x][..0] == [];
    assert Best([x]) == Some(x);
  }

  /** Day A averages temp 20, cloud 10, wind 5 (score 5.5); day B averages
      temp 15, cloud 50, wind 2 (score 12.1); A is picked. */
  lemma TwoDayExample()
    ensures var a := Weather("A", Some(20.0), Some(10.0), Some(5.0), None, None);
            var b := Weather("B", Some(15.0), Some(50.0), Some(2.0), None, None);
            DayScore([a]) == 5.5 && DayScore([b]) == 12.1 && BestDay([a, b], Unset) == Some("A")
  {
    var a := Weather("A", Some(20.0), Some(10.0), Some(5.0), None, None);
    var b := Weather("B", Some(15.0), Some(50.0), Some(2.0), None, None);
    SingleSampleDayScore(a);
    SingleSampleDayScore(b);
    assert FieldOf(a, Rain) == None && FieldOf(a, Snow) == None;
    assert FieldOf(b, Rain) == None && FieldOf(b, Snow) == None;
    assert SampleScore(a) == 5.5 && SampleScore(b) == 12.1;
    TwoDaysPickLower(a, b, Unset);
  }
}
