/**
 * What the finished report documents hold, stated over the functions that describe them (which
 * the report methods are proved to build): the striping and layout of every table, what each
 * item row shows for its item, what the summary rows show for each indicator, the colours of
 * the per-indicator tables, and when each report refuses to render.
 */
module ReportFacts {
  import opened Wrappers
  import opened Text
  import opened Framework
  import opened Scores
  import opened Charts
  import opened Tables
  import opened Reports
  import Store
  import Themes

  // ---------------------------------------------------------------- tables

  /** A styled table is its header row first, then the k-th spec's row at row index k. */
  lemma StyledTableRow(headers: seq<string>, colour: string, specs: seq<RowSpec>, k: int)
    requires Fits(|headers|, specs) && 0 <= k < |specs|
    ensures |StyledTable(headers, colour, specs)| == |specs| + 1
    ensures StyledTable(headers, colour, specs)[0] == HeaderRow(headers, colour)
    ensures StyledTable(headers, colour, specs)[k + 1] ==
      DataRow(|headers|, specs[k].values, k, specs[k].alignments, specs[k].image, specs[k].barCol)
  {
  }

  /** Column `i` of a data row with a value there is the cell `_add_table_row` writes for it. */
  lemma DataRowCell(columns: nat, values: seq<Value>, rowIndex: int, alignments: seq<Align>,
                    image: Option<BarChart>, barCol: Option<int>, i: int)
    requires |values| <= columns && 0 <= i < |values|
    ensures DataRow(columns, values, rowIndex, alignments, image, barCol)[i] ==
      DataCell(values, i, rowIndex, alignments, image, barCol)
  {
  }

  /** A column holding a value rather than the bar shows that value as text. */
  lemma TextCell(columns: nat, values: seq<Value>, rowIndex: int, alignments: seq<Align>,
                 image: Option<BarChart>, barCol: Option<int>, i: int)
    requires |values| <= columns && 0 <= i < |values| && !values[i].Null?
    requires image.None? || barCol != Some(i)
    ensures DataRow(columns, values, rowIndex, alignments, image, barCol)[i].content == Text(values[i])
  {
    DataRowCell(columns, values, rowIndex, alignments, image, barCol, i);
  }

  /**
   * The data rows of a styled table are striped: the first is white, and each valued cell is
   * white on even row indices and cream on odd ones, so neighbouring rows never share a shade.
   */
  lemma StyledTableStriped(headers: seq<string>, colour: string, specs: seq<RowSpec>, k: int, i: int)
    requires Fits(|headers|, specs) && 0 <= k < |specs| && 0 <= i < |specs[k].values|
    ensures StyledTable(headers, colour, specs)[k + 1][i].shading == Some(if k % 2 == 0 then WHITE else CREAM)
    ensures k + 1 < |specs| && i < |specs[k + 1].values| ==>
      StyledTable(headers, colour, specs)[k + 1][i].shading != StyledTable(headers, colour, specs)[k + 2][i].shading
  {
    StyledTableRow(headers, colour, specs, k);
    if k + 1 < |specs| {
      StyledTableRow(headers, colour, specs, k + 1);
      ShadingAlternates(k);
    }
  }

  // ---------------------------------------------------------------- score lookups

  /** The score a report shows for indicator `i` is the mean of the participant's ratings present in its range. */
  lemma IndicatorScoreIsMean(ratings: Ratings, i: Indicator)
    ensures Get(CalculateIndicatorScores(ratings), i) == Mean(PresentScores(ratings, IndicatorItems(i)))
  {
    assert i in ALL_INDICATORS;
  }

  /** The cohort score a report shows for indicator `i` is the cohort mean over all of its items. */
  lemma CohortScoreIsMean(avgs: Averages, i: Indicator)
    ensures Get(CohortIndicatorScores(avgs), i) == CohortMean(avgs, IndicatorItems(i))
  {
    assert i in ALL_INDICATORS;
  }

  /** The cohort score the Impact report shows for focus `f` is the cohort mean over the items tagged `f`. */
  lemma CohortFocusScoreIsMean(avgs: Averages, f: Focus)
    ensures Get(CohortFocusScores(avgs), f) == CohortMean(avgs, GetItemsByFocus(f))
  {
    assert f in ALL_FOCI;
  }

  // ---------------------------------------------------------------- the Baseline report

  /**
   * Row `j + 1` of a Baseline items table shows item `items[j]`: its number, statement and focus,
   * a bar of the participant's rating (0 when unrated) in the table's colour, and the rating,
   * which reads back as that number.
   */
  lemma BaselineItemRow(ratings: Ratings, items: seq<int>, header: string, colour: string, j: int)
    requires forall m :: 0 <= m < |items| ==> 1 <= items[m] <= ITEM_COUNT
    requires 0 <= j < |items|
    ensures |BaselineItems(ratings, items, header, colour)| == |items| + 1
    ensures BaselineItems(ratings, items, header, colour)[0] == HeaderRow(ITEM_HEADERS, header)
    ensures var row := BaselineItems(ratings, items, header, colour)[j + 1];
      var n := items[j];
      var s := Score(ratings, n);
      |row| == |ITEM_HEADERS| &&
      row[0].content == Text(Num(n)) &&
      row[1].content == Text(Str(ItemText(n))) &&
      row[2].content == Text(Str(FocusName(ITEM_TAGS[n - 1].focus))) &&
      row[3] == Cell(Picture(CreateBarChart(s as real, colour)), Some(RowShade(j)), Some(Center)) &&
      row[4].content == Text(Num(s)) &&
      IsSignedNumeral(IntToString(s)) && SignedValue(IntToString(s)) == s
  {
    var specs := BaselineItemSpecs(ratings, items, colour);
    var spec := specs[j];
    StyledTableRow(ITEM_HEADERS, header, specs, j);
    TextCell(5, spec.values, j, spec.alignments, spec.image, spec.barCol, 0);
    TextCell(5, spec.values, j, spec.alignments, spec.image, spec.barCol, 1);
    TextCell(5, spec.values, j, spec.alignments, spec.image, spec.barCol, 2);
    TextCell(5, spec.values, j, spec.alignments, spec.image, spec.barCol, 4);
    DataRowCell(5, spec.values, j, spec.alignments, spec.image, spec.barCol, 3);
    var n := items[j];
    IntToStringRoundTrip(Score(ratings, n));
  }

  /**
   * The Baseline's `k`-th indicator table lists that indicator's items in order, one row each,
   * under a header in the indicator's colour (without its `#`), each bar drawn in that colour.
   */
  lemma BaselineIndicatorTableRow(ratings: Ratings, k: int, j: int)
    requires 0 <= k < AXES
    requires 0 <= j <= INDICATORS[k].end - INDICATORS[k].start
    ensures var t := BaselineIndicatorTables(ratings)[k];
      var i := INDICATORS[k].indicator;
      var n := INDICATORS[k].start + j;
      var s := Score(ratings, n);
      |BaselineIndicatorTables(ratings)| == AXES &&
      |t| == INDICATORS[k].end - INDICATORS[k].start + 2 &&
      t[0] == HeaderRow(ITEM_HEADERS, IndicatorColour(i)[1..]) && |t[j + 1]| == |ITEM_HEADERS| &&
      t[j + 1][0].content == Text(Num(n)) &&
      t[j + 1][3].content == Picture(CreateBarChart(s as real, IndicatorColour(i)))
  {
    var i := INDICATORS[k].indicator;
    assert RangeOf(i) == INDICATORS[k];
    IndicatorItemsAreItems(i);
    assert BaselineIndicatorTables(ratings)[k] == BaselineIndicatorTable(ratings, k);
    HexlessIndicatorColour(i);
    BaselineItemRow(ratings, IndicatorItems(i), Hexless(IndicatorColour(i)), IndicatorColour(i), j);
  }

  /**
   * Row `k + 1` of the Baseline summary names the `k`-th indicator and shows its score (the mean
   * of the ratings present in its range); the last row is the OVERALL row with the overall score.
   */
  lemma BaselineSummaryRow(ratings: Ratings, k: int)
    requires 0 <= k < AXES
    ensures var t := BaselineSummary(ratings);
      var i := INDICATORS[k].indicator;
      |t| == AXES + 2 && |t[k + 1]| == 2 &&
      t[k + 1][0].content == Text(Str(IndicatorName(i))) &&
      t[k + 1][1].content == Text(OneDecimal("", Mean(PresentScores(ratings, IndicatorItems(i))))) &&
      t[AXES + 1] == OverallRow([Str("OVERALL"), OneDecimal("", CalculateOverallScore(ratings))])
  {
    var scores := CalculateIndicatorScores(ratings);
    ScoreRowCells(scores, k);
    assert BaselineSummary(ratings)[k + 1] == ScoreTable(scores)[k + 1];
    IndicatorScoreIsMean(ratings, INDICATORS[k].indicator);
  }

  /** The cells of row `k + 1` of the Baseline summary's indicator rows: the `k`-th indicator and its score. */
  lemma ScoreRowCells(scores: map<Indicator, real>, k: int)
    requires 0 <= k < AXES
    ensures var t := ScoreTable(scores);
      var i := INDICATORS[k].indicator;
      |t| == AXES + 1 && |t[k + 1]| == 2 &&
      t[k + 1][0].content == Text(Str(IndicatorName(i))) &&
      t[k + 1][1].content == Text(Fixed(Get(scores, i)))
  {
    var specs := ScoreRows(scores);
    var spec := specs[k];
    StyledTableRow(SCORE_HEADERS, HEADER_PURPLE, specs, k);
    TextCell(2, spec.values, k, spec.alignments, None, None, 0);
    TextCell(2, spec.values, k, spec.alignments, None, None, 1);
  }

  /**
   * `generate_baseline_report` renders exactly when its entry checks pass, and then shows the
   * radar of the PRE indicator scores, the four indicator tables, the table of the two overall
   * items in the brand purple, and the PRE reflections.
   */
  lemma BaselineRenders(data: Option<Store.ParticipantData>)
    ensures BaselineOf(data).Success? <==>
      data.Some? && data.value.pre.Some? && data.value.cohort.Some? && data.value.participant.role.Some? &&
      !IsBlank(data.value.participant.name)
    ensures BaselineOf(data).Failure? ==> BaselineOf(data).error == BaselineInput(data).error
    ensures BaselineOf(data).Success? ==>
      var ratings := data.value.pre.value.ratings;
      var b := BaselineOf(data).value;
      b.radar == RadarLayers(CalculateIndicatorScores(ratings)) &&
      b.indicatorTables == BaselineIndicatorTables(ratings) &&
      b.overallTable == BaselineOverallTable(ratings) &&
      b.reflections == PreReflections(data.value.pre.value.openResponses)
  {
  }

  /** The Baseline reflections: each PRE question in order, with the stored answer or the placeholder. */
  lemma PreReflectionsAnswers(responses: map<int, Option<string>>, q: int)
    requires 0 <= q < 3
    ensures |PreReflections(responses)| == 3
    ensures PreReflections(responses)[q].question == OPEN_QUESTIONS_PRE[q]
    ensures PreReflections(responses)[q].original.None?
    ensures PreReflections(responses)[q].response ==
      if q + 1 in responses then responses[q + 1] else Some(NO_RESPONSE)
  {
  }

  // ---------------------------------------------------------------- the Progress report

  /**
   * Row `j + 1` of a Progress items table shows item `items[j]`: both ratings (0 when absent),
   * the comparison bar of the two in the table's colour, and the item change, which reads back
   * as POST minus PRE and starts with `+` exactly when the rating rose.
   */
  lemma ProgressItemRow(preRatings: Ratings, postRatings: Ratings, items: seq<int>, header: string, colour: string,
                        j: int)
    requires forall m :: 0 <= m < |items| ==> 1 <= items[m] <= ITEM_COUNT
    requires 0 <= j < |items|
    ensures |ProgressItems(preRatings, postRatings, items, header, colour)| == |items| + 1
    ensures ProgressItems(preRatings, postRatings, items, header, colour)[0] == HeaderRow(CHANGE_HEADERS, header)
    ensures var row := ProgressItems(preRatings, postRatings, items, header, colour)[j + 1];
      var n := items[j];
      var pre := Score(preRatings, n);
      var post := Score(postRatings, n);
      |row| == |CHANGE_HEADERS| &&
      row[0].content == Text(Num(n)) &&
      row[3].content == Text(Num(pre)) &&
      row[4].content == Text(Num(post)) &&
      row[5] == Cell(Picture(CreateComparisonBarChart(pre as real, post as real, colour)), Some(RowShade(j)), Some(Center)) &&
      row[6].content == Text(Str(ChangeString(post - pre))) &&
      IsSignedNumeral(ChangeString(post - pre)) && SignedValue(ChangeString(post - pre)) == post - pre &&
      (ChangeString(post - pre)[0] == '+' <==> post > pre)
  {
    var specs := ProgressItemSpecs(preRatings, postRatings, items, colour);
    var spec := specs[j];
    StyledTableRow(CHANGE_HEADERS, header, specs, j);
    TextCell(7, spec.values, j, spec.alignments, spec.image, spec.barCol, 0);
    TextCell(7, spec.values, j, spec.alignments, spec.image, spec.barCol, 3);
    TextCell(7, spec.values, j, spec.alignments, spec.image, spec.barCol, 4);
    TextCell(7, spec.values, j, spec.alignments, spec.image, spec.barCol, 6);
    DataRowCell(7, spec.values, j, spec.alignments, spec.image, spec.barCol, 5);
    ChangeStringRoundTrip(Score(postRatings, items[j]) - Score(preRatings, items[j]));
  }

  /** The Progress report's `k`-th indicator table: that indicator's items, in its colour. */
  lemma ProgressIndicatorTableRow(preRatings: Ratings, postRatings: Ratings, k: int, j: int)
    requires 0 <= k < AXES
    requires 0 <= j <= INDICATORS[k].end - INDICATORS[k].start
    ensures var t := ProgressIndicatorTables(preRatings, postRatings)[k];
      var i := INDICATORS[k].indicator;
      var n := INDICATORS[k].start + j;
      var pre := Score(preRatings, n);
      var post := Score(postRatings, n);
      |ProgressIndicatorTables(preRatings, postRatings)| == AXES &&
      |t| == INDICATORS[k].end - INDICATORS[k].start + 2 &&
      t[0] == HeaderRow(CHANGE_HEADERS, IndicatorColour(i)[1..]) && |t[j + 1]| == |CHANGE_HEADERS| &&
      t[j + 1][0].content == Text(Num(n)) &&
      t[j + 1][5].content == Picture(CreateComparisonBarChart(pre as real, post as real, IndicatorColour(i)))
  {
    var i := INDICATORS[k].indicator;
    assert RangeOf(i) == INDICATORS[k];
    IndicatorItemsAreItems(i);
    assert ProgressIndicatorTables(preRatings, postRatings)[k] == ProgressIndicatorTable(preRatings, postRatings, k);
    HexlessIndicatorColour(i);
    ProgressItemRow(preRatings, postRatings, IndicatorItems(i), Hexless(IndicatorColour(i)), IndicatorColour(i), j);
  }

  /**
   * Row `k + 1` of the Progress summary shows the `k`-th indicator's PRE and POST scores, their
   * change with a `+` exactly when it is positive, and the cohort's POST mean for the indicator.
   */
  lemma ProgressSummaryRow(preRatings: Ratings, postRatings: Ratings, cohort: Averages, k: int)
    requires 0 <= k < AXES
    ensures var t := ProgressSummary(preRatings, postRatings, cohort);
      var i := INDICATORS[k].indicator;
      var pre := Mean(PresentScores(preRatings, IndicatorItems(i)));
      var post := Mean(PresentScores(postRatings, IndicatorItems(i)));
      |t| == AXES + 2 && |t[k + 1]| == 5 &&
      t[k + 1][0].content == Text(Str(IndicatorName(i))) &&
      t[k + 1][1].content == Text(OneDecimal("", pre)) &&
      t[k + 1][2].content == Text(OneDecimal("", post)) &&
      t[k + 1][3].content.Text? && t[k + 1][3].content.value.OneDecimal? &&
      t[k + 1][3].content.value.x == post - pre &&
      (t[k + 1][3].content.value.prefix == "+" <==> post > pre) &&
      t[k + 1][4].content == Text(OneDecimal("", CohortMean(cohort, IndicatorItems(i))))
  {
    var i := INDICATORS[k].indicator;
    var pre := CalculateIndicatorScores(preRatings);
    var post := CalculateIndicatorScores(postRatings);
    var mean := CohortIndicatorScores(cohort);
    ProgressRowCells(pre, post, mean, k);
    assert ProgressSummary(preRatings, postRatings, cohort)[k + 1] == ProgressIndicatorRows(pre, post, mean)[k + 1];
    IndicatorScoreIsMean(preRatings, i);
    IndicatorScoreIsMean(postRatings, i);
    CohortScoreIsMean(cohort, i);
  }

  /** The cells of row `k + 1` of the Progress indicator rows: the `k`-th indicator's values. */
  lemma ProgressRowCells(pre: map<Indicator, real>, post: map<Indicator, real>, cohort: map<Indicator, real>, k: int)
    requires 0 <= k < AXES
    ensures var t := ProgressIndicatorRows(pre, post, cohort);
      var i := INDICATORS[k].indicator;
      |t| == AXES + 1 &&
      t[k + 1][0].content == Text(Str(IndicatorName(i))) &&
      t[k + 1][1].content == Text(Fixed(Get(pre, i))) &&
      t[k + 1][2].content == Text(Fixed(Get(post, i))) &&
      t[k + 1][3].content == Text(Change(Get(post, i) - Get(pre, i))) &&
      t[k + 1][4].content == Text(Fixed(Get(cohort, i)))
  {
    var specs := ProgressRows(pre, post, cohort);
    var spec := specs[k];
    StyledTableRow(PROGRESS_HEADERS, HEADER_PURPLE, specs, k);
    TextCell(5, spec.values, k, spec.alignments, None, None, 0);
    TextCell(5, spec.values, k, spec.alignments, None, None, 1);
    TextCell(5, spec.values, k, spec.alignments, None, None, 2);
    TextCell(5, spec.values, k, spec.alignments, None, None, 3);
    TextCell(5, spec.values, k, spec.alignments, None, None, 4);
  }

  /** The Progress OVERALL row: both overall scores, their signed change, and the cohort's overall mean. */
  lemma ProgressOverallCells(preRatings: Ratings, postRatings: Ratings, cohort: Averages)
    ensures var t := ProgressSummary(preRatings, postRatings, cohort);
      var pre := CalculateOverallScore(preRatings);
      var post := CalculateOverallScore(postRatings);
      |t| == AXES + 2 && |t[AXES + 1]| == 5 &&
      t[AXES + 1][0].shading == t[AXES + 1][4].shading == Some(LIGHT_GREY) &&
      t[AXES + 1][1].content == Text(OneDecimal("", pre)) &&
      t[AXES + 1][2].content == Text(OneDecimal("", post)) &&
      t[AXES + 1][3].content == Text(OneDecimal(if post > pre then "+" else "", post - pre)) &&
      t[AXES + 1][4].content == Text(OneDecimal("", CohortOverall(cohort)))
  {
  }

  /**
   * `generate_progress_report` renders exactly when the participant has both stages, a role and a
   * name with a first word; it then shows the comparison radar of the two stages' indicator scores.
   */
  lemma ProgressRenders(data: Option<Store.ParticipantData>, cohort: Averages)
    ensures ProgressOf(data, cohort).Success? <==>
      data.Some? && data.value.pre.Some? && data.value.post.Some? && data.value.participant.role.Some? &&
      !IsBlank(data.value.participant.name)
    ensures ProgressOf(data, cohort).Failure? ==> ProgressOf(data, cohort).error == ProgressInput(data).error
    ensures ProgressOf(data, cohort).Success? ==>
      ProgressOf(data, cohort).value.radar ==
        ComparisonRadarLayers(CalculateIndicatorScores(data.value.pre.value.ratings),
                              CalculateIndicatorScores(data.value.post.value.ratings))
  {
  }

  /**
   * The Progress reflections: each POST question in order with its answer or the placeholder; only
   * the third quotes the PRE concern, and only when that concern was a non-empty answer.
   */
  lemma PostReflectionsAnswers(pre: map<int, Option<string>>, post: map<int, Option<string>>, q: int)
    requires 0 <= q < 3
    ensures |PostReflections(pre, post)| == 3
    ensures PostReflections(pre, post)[q].question == OPEN_QUESTIONS_POST[q]
    ensures PostReflections(pre, post)[q].response == if q + 1 in post then post[q + 1] else Some(NO_RESPONSE)
    ensures PostReflections(pre, post)[q].original.Some? <==> q == 2 && 3 in pre && pre[3].Some? && pre[3].value != ""
    ensures PostReflections(pre, post)[q].original.Some? ==> PostReflections(pre, post)[q].original == pre[3]
  {
  }

  // ---------------------------------------------------------------- the Impact report

  /** No participant is complete without being counted among both the PRE and the POST completions. */
  lemma {:induction false} CompleteWithinCounters(ps: seq<Store.ParticipantData>)
    ensures |Complete(ps)| <= Store.CountCompleted(ps, Store.PRE)
    ensures |Complete(ps)| <= Store.CountCompleted(ps, Store.POST)
  {
    if ps != [] {
      CompleteWithinCounters(ps[..|ps| - 1]);
    }
  }

  /**
   * The Impact report renders exactly when the cohort exists, two participants have both stages,
   * the cohort has a programme and both theme records can be formatted; with the counters
   * `get_cohort_data` reports, both counters are then at least 2. Themes that are not an array of
   * objects make it raise what formatting the first such record raises.
   */
  lemma ImpactRenders(data: Option<Store.CohortData>, preAvgs: Averages, postAvgs: Averages,
                      extractor: Themes.ThemeExtractor, call: Themes.Prompt -> Themes.Reply,
                      parse: string -> Themes.Parsed)
    requires data.Some? ==> data.value.preCompleted == Store.CountCompleted(data.value.participants, Store.PRE)
    requires data.Some? ==> data.value.postCompleted == Store.CountCompleted(data.value.participants, Store.POST)
    ensures ImpactOf(data, preAvgs, postAvgs, extractor, call, parse).Success? <==>
      data.Some? && |Complete(data.value.participants)| >= 2 && data.value.cohort.programme.Some? &&
      Themes.Formattable(Some(Takeaways(data.value, extractor, call, parse))) &&
      Themes.Formattable(Some(Commitments(data.value, extractor, call, parse)))
    ensures (ImpactInput(data).Success? &&
             !(Themes.Formattable(Some(Takeaways(data.value, extractor, call, parse))) &&
               Themes.Formattable(Some(Commitments(data.value, extractor, call, parse))))) ==>
      var takeaways := Takeaways(data.value, extractor, call, parse);
      var commitments := Commitments(data.value, extractor, call, parse);
      ImpactOf(data, preAvgs, postAvgs, extractor, call, parse) ==
        Failure(if !Themes.Formattable(Some(takeaways)) then ThemeLines(takeaways).error else ThemeLines(commitments).error)
    ensures ImpactOf(data, preAvgs, postAvgs, extractor, call, parse).Success? ==>
      var r := ImpactOf(data, preAvgs, postAvgs, extractor, call, parse).value;
      r.takeaways == ThemeLines(Takeaways(data.value, extractor, call, parse)).value &&
      r.commitments == ThemeLines(Commitments(data.value, extractor, call, parse)).value
    ensures ImpactOf(data, preAvgs, postAvgs, extractor, call, parse).Success? ==>
      data.value.preCompleted >= 2 && data.value.postCompleted >= 2
  {
    ImpactRendersExactly(data, preAvgs, postAvgs, extractor, call, parse);
    ImpactThemeFailure(data, preAvgs, postAvgs, extractor, call, parse);
    ImpactThemeBullets(data, preAvgs, postAvgs, extractor, call, parse);
  }

  /** When the Impact report renders, and the counters it then has. */
  lemma ImpactRendersExactly(data: Option<Store.CohortData>, preAvgs: Averages, postAvgs: Averages,
                             extractor: Themes.ThemeExtractor, call: Themes.Prompt -> Themes.Reply,
                             parse: string -> Themes.Parsed)
    requires data.Some? ==> data.value.preCompleted == Store.CountCompleted(data.value.participants, Store.PRE)
    requires data.Some? ==> data.value.postCompleted == Store.CountCompleted(data.value.participants, Store.POST)
    ensures ImpactOf(data, preAvgs, postAvgs, extractor, call, parse).Success? <==>
      data.Some? && |Complete(data.value.participants)| >= 2 && data.value.cohort.programme.Some? &&
      Themes.Formattable(Some(Takeaways(data.value, extractor, call, parse))) &&
      Themes.Formattable(Some(Commitments(data.value, extractor, call, parse)))
    ensures ImpactOf(data, preAvgs, postAvgs, extractor, call, parse).Success? ==>
      data.value.preCompleted >= 2 && data.value.postCompleted >= 2
  {
    if data.Some? {
      CompleteWithinCounters(data.value.participants);
    }
    if data.None? || |Complete(data.value.participants)| < 2 || data.value.cohort.programme.None? {
      assert ImpactInput(data).Failure?;
    } else {
      ImpactOfThemes(data, preAvgs, postAvgs, extractor, call, parse);
    }
  }

  /** The error the Impact report raises when a theme record cannot be formatted. */
  lemma ImpactThemeFailure(data: Option<Store.CohortData>, preAvgs: Averages, postAvgs: Averages,
                           extractor: Themes.ThemeExtractor, call: Themes.Prompt -> Themes.Reply,
                           parse: string -> Themes.Parsed)
    ensures (ImpactInput(data).Success? &&
             !(Themes.Formattable(Some(Takeaways(data.value, extractor, call, parse))) &&
               Themes.Formattable(Some(Commitments(data.value, extractor, call, parse))))) ==>
      var takeaways := Takeaways(data.value, extractor, call, parse);
      var commitments := Commitments(data.value, extractor, call, parse);
      ImpactOf(data, preAvgs, postAvgs, extractor, call, parse) ==
        Failure(if !Themes.Formattable(Some(takeaways)) then ThemeLines(takeaways).error else ThemeLines(commitments).error)
  {
    if ImpactInput(data).Success? {
      ImpactOfThemes(data, preAvgs, postAvgs, extractor, call, parse);
    }
  }

  /** The theme bullets of a rendered Impact report. */
  lemma ImpactThemeBullets(data: Option<Store.CohortData>, preAvgs: Averages, postAvgs: Averages,
                           extractor: Themes.ThemeExtractor, call: Themes.Prompt -> Themes.Reply,
                           parse: string -> Themes.Parsed)
    ensures ImpactOf(data, preAvgs, postAvgs, extractor, call, parse).Success? ==>
      var r := ImpactOf(data, preAvgs, postAvgs, extractor, call, parse).value;
      r.takeaways == ThemeLines(Takeaways(data.value, extractor, call, parse)).value &&
      r.commitments == ThemeLines(Commitments(data.value, extractor, call, parse)).value
  {
    if ImpactInput(data).Success? {
      ImpactOfThemes(data, preAvgs, postAvgs, extractor, call, parse);
    }
  }

  /** Past the guard, the Impact report is `ImpactFromThemes`' document over the two extracted records. */
  lemma ImpactOfThemes(data: Option<Store.CohortData>, preAvgs: Averages, postAvgs: Averages,
                       extractor: Themes.ThemeExtractor, call: Themes.Prompt -> Themes.Reply,
                       parse: string -> Themes.Parsed)
    requires ImpactInput(data).Success?
    ensures var takeaways := Takeaways(data.value, extractor, call, parse);
      var commitments := Commitments(data.value, extractor, call, parse);
      ImpactOf(data, preAvgs, postAvgs, extractor, call, parse) ==
        ImpactFrom(data.value, preAvgs, postAvgs, ThemeLines(takeaways), ThemeLines(commitments))
  {
    var d := data.value;
    ImpactFromThemes(d, preAvgs, postAvgs, Takeaways(d, extractor, call, parse), Commitments(d, extractor, call, parse));
  }

  /** The Impact document over two theme records: rendered exactly when both can be formatted. */
  lemma ImpactFromThemes(d: Store.CohortData, preAvgs: Averages, postAvgs: Averages,
                         takeaways: Themes.ThemeData, commitments: Themes.ThemeData)
    ensures ImpactFrom(d, preAvgs, postAvgs, ThemeLines(takeaways), ThemeLines(commitments)).Success? <==>
      Themes.Formattable(Some(takeaways)) && Themes.Formattable(Some(commitments))
    ensures !(Themes.Formattable(Some(takeaways)) && Themes.Formattable(Some(commitments))) ==>
      ImpactFrom(d, preAvgs, postAvgs, ThemeLines(takeaways), ThemeLines(commitments)) ==
        Failure(if !Themes.Formattable(Some(takeaways)) then ThemeLines(takeaways).error else ThemeLines(commitments).error)
    ensures ImpactFrom(d, preAvgs, postAvgs, ThemeLines(takeaways), ThemeLines(commitments)).Success? ==>
      var r := ImpactFrom(d, preAvgs, postAvgs, ThemeLines(takeaways), ThemeLines(commitments)).value;
      r.takeaways == ThemeLines(takeaways).value && r.commitments == ThemeLines(commitments).value
  {
  }

  /**
   * A rendered Impact report heads with the cohort's overall change, written with a `+`
   * whatever its sign (see `Increase`), and reports the cohort's PRE and POST averages of item 32
   * as its return-on-investment figures.
   */
  lemma ImpactHeadline(data: Option<Store.CohortData>, preAvgs: Averages, postAvgs: Averages,
                       extractor: Themes.ThemeExtractor, call: Themes.Prompt -> Themes.Reply,
                       parse: string -> Themes.Parsed)
    ensures ImpactOf(data, preAvgs, postAvgs, extractor, call, parse).Success? ==>
      var r := ImpactOf(data, preAvgs, postAvgs, extractor, call, parse).value;
      r.increase == Increase(preAvgs, postAvgs) &&
      r.roi == (AverageOf(preAvgs, OVERALL_LAST), AverageOf(postAvgs, OVERALL_LAST))
  {
    if ImpactInput(data).Success? {
      var d := data.value;
      assert ImpactOf(data, preAvgs, postAvgs, extractor, call, parse) ==
        ImpactFrom(d, preAvgs, postAvgs, ThemeLines(Takeaways(d, extractor, call, parse)),
                   ThemeLines(Commitments(d, extractor, call, parse)));
    }
  }

  /**
   * A rendered Impact report's results and focus tables are built from the cohort's indicator
   * and focus-tag scores (whose rows `ImpactResultsRow` and `ImpactFocusRow` describe).
   */
  lemma ImpactTables(data: Option<Store.CohortData>, preAvgs: Averages, postAvgs: Averages,
                     extractor: Themes.ThemeExtractor, call: Themes.Prompt -> Themes.Reply,
                     parse: string -> Themes.Parsed)
    ensures ImpactOf(data, preAvgs, postAvgs, extractor, call, parse).Success? ==>
      var r := ImpactOf(data, preAvgs, postAvgs, extractor, call, parse).value;
      r.results == ResultsTable(CohortIndicatorScores(preAvgs), CohortIndicatorScores(postAvgs)) &&
      r.foci == FocusTable(CohortFocusScores(preAvgs), CohortFocusScores(postAvgs))
  {
    if ImpactInput(data).Success? {
      var d := data.value;
      assert ImpactOf(data, preAvgs, postAvgs, extractor, call, parse) ==
        ImpactFrom(d, preAvgs, postAvgs, ThemeLines(Takeaways(d, extractor, call, parse)),
                   ThemeLines(Commitments(d, extractor, call, parse)));
    }
  }

  /**
   * Row `k + 1` of the Impact results table shows the `k`-th indicator's cohort PRE and POST means
   * over all its items and their change, with a `+` exactly when the cohort improved.
   */
  lemma ImpactResultsRow(preAvgs: Averages, postAvgs: Averages, k: int)
    requires 0 <= k < AXES
    ensures var t := ResultsTable(CohortIndicatorScores(preAvgs), CohortIndicatorScores(postAvgs));
      var i := INDICATORS[k].indicator;
      var pre := CohortMean(preAvgs, IndicatorItems(i));
      var post := CohortMean(postAvgs, IndicatorItems(i));
      |t| == AXES + 1 && |t[k + 1]| == 4 &&
      t[k + 1][0].content == Text(Str(IndicatorName(i))) &&
      t[k + 1][1].content == Text(OneDecimal("", pre)) &&
      t[k + 1][2].content == Text(OneDecimal("", post)) &&
      t[k + 1][3].content.Text? && t[k + 1][3].content.value.OneDecimal? && t[k + 1][3].content.value.x == post - pre &&
      (t[k + 1][3].content.value.prefix == "+" <==> post > pre)
  {
    var i := INDICATORS[k].indicator;
    var specs := ResultRows(CohortIndicatorScores(preAvgs), CohortIndicatorScores(postAvgs));
    var spec := specs[k];
    StyledTableRow(RESULT_HEADERS, HEADER_PURPLE, specs, k);
    TextCell(4, spec.values, k, spec.alignments, None, None, 0);
    TextCell(4, spec.values, k, spec.alignments, None, None, 1);
    TextCell(4, spec.values, k, spec.alignments, None, None, 2);
    TextCell(4, spec.values, k, spec.alignments, None, None, 3);
    CohortScoreIsMean(preAvgs, i);
    CohortScoreIsMean(postAvgs, i);
  }

  /**
   * Row `k + 1` of the Impact focus table shows the `k`-th focus tag, what it measures, the PRE
   * and POST focus scores (0 for a tag without one) and their change, with a `+` exactly when
   * the score rose. The scores the report passes are the cohort means over each tag's items
   * (`CohortFocusScoreIsMean`).
   */
  lemma ImpactFocusRow(pre: map<Focus, real>, post: map<Focus, real>, k: int)
    requires 0 <= k < |FOCUS_TAGS|
    ensures var t := FocusTable(pre, post);
      var f := FOCUS_TAGS[k];
      |t| == |FOCUS_TAGS| + 1 && |t[k + 1]| == 5 &&
      t[k + 1][0].content == Text(Str(FocusName(f))) &&
      t[k + 1][1].content == Text(Str(FOCUS_DESCRIPTIONS[k])) &&
      t[k + 1][2].content == Text(OneDecimal("", Get(pre, f))) &&
      t[k + 1][3].content == Text(OneDecimal("", Get(post, f))) &&
      t[k + 1][4].content.Text? && t[k + 1][4].content.value.OneDecimal? && t[k + 1][4].content.value.x == Get(post, f) - Get(pre, f) &&
      (t[k + 1][4].content.value.prefix == "+" <==> Get(post, f) > Get(pre, f))
  {
    var specs := FocusRows(pre, post);
    var spec := specs[k];
    StyledTableRow(FOCUS_HEADERS, HEADER_PURPLE, specs, k);
    TextCell(5, spec.values, k, spec.alignments, None, None, 0);
    TextCell(5, spec.values, k, spec.alignments, None, None, 1);
    TextCell(5, spec.values, k, spec.alignments, None, None, 2);
    TextCell(5, spec.values, k, spec.alignments, None, None, 3);
    TextCell(5, spec.values, k, spec.alignments, None, None, 4);
  }
}
