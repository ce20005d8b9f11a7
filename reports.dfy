/**
 * The three reports as the documents' modelled content: the entry checks and their errors,
 * the summary and item tables (cell by cell, as `_add_table_row` fills and shades them), the
 * radar layers, the reflections and, for the Impact report, the theme bullets. Each report is
 * a method that builds its tables row by row through `Tables.Table`, proved equal to a
 * function describing the finished document; the lemmas below state what that document holds.
 * Fonts, headings, fixed prose, page breaks and the `.docx` encoding are not modelled.
 */
module Reports {
  import opened Wrappers
  import opened Text
  import opened Framework
  import opened Scores
  import opened Charts
  import opened Tables
  import Themes
  import Store

  /** What the report generators raise: Python's ValueError, TypeError, IndexError and AttributeError. */
  datatype ReportError = ValueError(message: string) | TypeError | IndexError | AttributeError

  const NO_PRE_DATA := "No PRE assessment data found for this participant"
  const PRE_AND_POST_REQUIRED := "Both PRE and POST assessments required for Progress report"
  const COHORT_NOT_FOUND := "Cohort not found"
  const TOO_FEW_COMPLETE := "Need at least 2 participants with complete data"
  const MANUAL_REVIEW := "Manual review of responses recommended."
  const NO_RESPONSE := "No response provided"
  /** The shading of the OVERALL rows (`F5F5F5`). */
  const LIGHT_GREY := "F5F5F5"

  // ---------------------------------------------------------------- tables

  /** One `_add_table_row` call: the values, their alignments, the bar chart and its column. */
  datatype RowSpec = RowSpec(values: seq<Value>, alignments: seq<Align>, image: Option<BarChart>, barCol: Option<int>)

  predicate Fits(columns: nat, specs: seq<RowSpec>)
  {
    forall k :: 0 <= k < |specs| ==> |specs[k].values| <= columns
  }

  /** `_create_styled_table`, then `_add_table_row` for each spec in turn, the k-th at row index k. */
  function StyledTable(headers: seq<string>, colour: string, specs: seq<RowSpec>): seq<seq<Cell>>
    requires Fits(|headers|, specs)
  {
    [HeaderRow(headers, colour)] +
    seq(|specs|, k requires 0 <= k < |specs| =>
      DataRow(|headers|, specs[k].values, k, specs[k].alignments, specs[k].image, specs[k].barCol))
  }

  /** The table-building loop the reports share, run on one styled table. */
  method BuildTable(headers: seq<string>, colour: string, specs: seq<RowSpec>) returns (rows: seq<seq<Cell>>)
    requires Fits(|headers|, specs)
    ensures rows == StyledTable(headers, colour, specs)
  {
    var t := new Table(headers, colour);
    for k := 0 to |specs|
      invariant t.Valid() && t.columns == |headers|
      invariant |t.rows| == k + 1 && t.rows[0] == HeaderRow(headers, colour)
      invariant forall j :: 0 <= j < k ==>
        t.rows[j + 1] == DataRow(|headers|, specs[j].values, j, specs[j].alignments, specs[j].image, specs[j].barCol)
    {
      t.AddTableRow(specs[k].values, k, specs[k].alignments, specs[k].image, specs[k].barCol);
    }
    rows := t.rows;
    assert forall m :: 0 <= m < |rows| ==> rows[m] == StyledTable(headers, colour, specs)[m];
  }

  /**
   * An OVERALL row, filled directly rather than through `_add_table_row`: every cell shaded
   * light grey, the label left-aligned and the numbers centred.
   */
  function OverallRow(values: seq<Value>): (row: seq<Cell>)
    ensures |row| == |values|
    ensures forall j :: 0 <= j < |row| ==> row[j].shading == Some(LIGHT_GREY) && row[j].content == Text(values[j])
    ensures forall j :: 0 <= j < |row| ==> row[j].align == Some(if j == 0 then Left else Center)
  {
    seq(|values|, j requires 0 <= j < |values| => Cell(Text(values[j]), Some(LIGHT_GREY), Some(if j == 0 then Left else Center)))
  }

  // ---------------------------------------------------------------- cell values

  /** `str(n)`. */
  function Num(n: int): Value
  {
    Str(IntToString(n))
  }

  /** `f"{x:.1f}"`. */
  function Fixed(x: real): Value
  {
    OneDecimal("", x)
  }

  /** `f"+{x:.1f}" if x > 0 else f"{x:.1f}"`. */
  function Change(x: real): Value
  {
    OneDecimal(SignPrefix(x), x)
  }

  /** `scores.get(key, 0)`. */
  function Get<K>(scores: map<K, real>, key: K): real
  {
    if key in scores then scores[key] else 0.0
  }

  /** `ratings.get(n, 0)`. */
  function Score(ratings: Ratings, n: int): int
  {
    if n in ratings then ratings[n] else 0
  }

  /** `averages.get(n, {}).get('avg', 0)`. */
  function AverageOf(avgs: Averages, n: int): real
  {
    if n in avgs then avgs[n] else 0.0
  }

  /** `colour.replace('#', '')`. */
  function Hexless(colour: string): (r: string)
    ensures '#' !in r
    ensures |r| == |colour| - CountChar(colour, '#')
    ensures '#' !in colour ==> r == colour
  {
    if colour == [] then []
    else
      assert colour == [colour[0]] + colour[1..];
      (if colour[0] == '#' then [] else [colour[0]]) + Hexless(colour[1..])
  }

  /** An indicator's header colour is its brand colour without the leading `#`. */
  lemma HexlessIndicatorColour(i: Indicator)
    ensures Hexless(IndicatorColour(i)) == IndicatorColour(i)[1..]
  {
    var colour := IndicatorColour(i);
    assert colour[0] == '#' && '#' !in colour[1..];
  }

  /** The focus tag's name, as an item's `'focus'` entry holds it. */
  function FocusOf(n: int): string
    requires 1 <= n <= ITEM_COUNT
  {
    FocusName(ITEM_TAGS[n - 1].focus)
  }

  /** The indicator of the `k`-th table entry, in the reports' order. */
  function IndicatorAt(k: int): Indicator
    requires 0 <= k < AXES
  {
    INDICATORS[k].indicator
  }

  /** Every item of an indicator's range is a framework item. */
  lemma IndicatorItemsAreItems(i: Indicator)
    ensures forall j :: 0 <= j < |IndicatorItems(i)| ==> 1 <= IndicatorItems(i)[j] <= ITEM_COUNT
  {
  }

  // ---------------------------------------------------------------- reflections

  /** One reflection: the question, the PRE concern quoted before it (if any), the answer. */
  datatype Reflection = Reflection(question: string, original: Option<string>, response: Option<string>)

  /**
   * `responses.get(q, "No response provided")`: the stored answer (None when it is NULL, which
   * `add_run` writes as an empty run), or the placeholder when the question has no row.
   */
  function Response(responses: map<int, Option<string>>, q: int): (r: Option<string>)
    ensures q !in responses ==> r == Some(NO_RESPONSE)
    ensures q in responses ==> r == responses[q]
  {
    if q in responses then responses[q] else Some(NO_RESPONSE)
  }

  /** `pre_responses.get(3, "")`, quoted only when truthy. */
  function OriginalConcern(pre: map<int, Option<string>>): (r: Option<string>)
    ensures r.Some? ==> 3 in pre && pre[3] == r && r.value != ""
    ensures r.None? ==> 3 !in pre || pre[3].None? || pre[3].value == ""
  {
    if 3 in pre && pre[3].Some? && pre[3].value != "" then pre[3] else None
  }

  /** The Baseline report's reflections: each PRE question with its answer. */
  function PreReflections(responses: map<int, Option<string>>): seq<Reflection>
  {
    seq(|OPEN_QUESTIONS_PRE|, k requires 0 <= k < |OPEN_QUESTIONS_PRE| =>
      Reflection(OPEN_QUESTIONS_PRE[k], None, Response(responses, k + 1)))
  }

  /** The Progress report's reflections: each POST question, question 3 quoting the PRE concern. */
  function PostReflections(pre: map<int, Option<string>>, post: map<int, Option<string>>): seq<Reflection>
  {
    seq(|OPEN_QUESTIONS_POST|, k requires 0 <= k < |OPEN_QUESTIONS_POST| =>
      Reflection(OPEN_QUESTIONS_POST[k], if k + 1 == 3 then OriginalConcern(pre) else None, Response(post, k + 1)))
  }

  // ---------------------------------------------------------------- the Baseline report

  const SCORE_HEADERS := ["Indicator", "Score"]
  const ITEM_HEADERS := ["#", "Statement", "Focus", "", "Score"]
  const ITEM_ALIGNS := [Center, Left, Center, Center, Center]

  datatype Baseline = Baseline(radar: seq<Layer>, summary: seq<seq<Cell>>,
                               indicatorTables: seq<seq<seq<Cell>>>, overallTable: seq<seq<Cell>>,
                               reflections: seq<Reflection>)

  /**
   * What `generate_baseline_report` needs before it renders anything: participant data with a
   * PRE stage (else its ValueError), a cohort to name (`cohort['name']` on None raises
   * TypeError), a role to write in the information table (setting a cell's text to None raises
   * TypeError) and a name with a first word (`split()[0]` on a blank name raises IndexError).
   */
  function BaselineInput(data: Option<Store.ParticipantData>): (r: Result<Store.ParticipantData, ReportError>)
    ensures r == Failure(ValueError(NO_PRE_DATA)) <==> data.None? || data.value.pre.None?
    ensures r == Failure(TypeError) <==>
      data.Some? && data.value.pre.Some? && (data.value.cohort.None? || data.value.participant.role.None?)
    ensures r == Failure(IndexError) <==>
      data.Some? && data.value.pre.Some? && data.value.cohort.Some? && data.value.participant.role.Some? &&
      IsBlank(data.value.participant.name)
    ensures r.Success? ==> data == Some(r.value) && r.value.pre.Some?
  {
    if data.None? || data.value.pre.None? then Failure(ValueError(NO_PRE_DATA))
    else if data.value.cohort.None? || data.value.participant.role.None? then Failure(TypeError)
    else if IsBlank(data.value.participant.name) then Failure(IndexError)
    else Success(data.value)
  }

  /** A summary row: the indicator's name and its score. */
  function ScoreRow(scores: map<Indicator, real>, k: int): (r: RowSpec)
    requires 0 <= k < AXES
    ensures |r.values| == |SCORE_HEADERS|
  {
    RowSpec([Str(IndicatorName(IndicatorAt(k))), Fixed(Get(scores, IndicatorAt(k)))], [Left, Center], None, None)
  }

  /** The Baseline summary's indicator rows, in table order. */
  function ScoreRows(scores: map<Indicator, real>): (rows: seq<RowSpec>)
    ensures |rows| == AXES && forall k :: 0 <= k < |rows| ==> rows[k] == ScoreRow(scores, k)
  {
    seq(AXES, k requires 0 <= k < AXES => ScoreRow(scores, k))
  }

  /** The Baseline summary's indicator rows under their header. */
  function ScoreTable(scores: map<Indicator, real>): seq<seq<Cell>>
  {
    StyledTable(SCORE_HEADERS, HEADER_PURPLE, ScoreRows(scores))
  }

  /** The Baseline summary: one row per indicator in table order, then the OVERALL row. */
  function BaselineSummary(ratings: Ratings): seq<seq<Cell>>
  {
    ScoreTable(CalculateIndicatorScores(ratings)) + [OverallRow([Str("OVERALL"), Fixed(CalculateOverallScore(ratings))])]
  }

  /** An item row of the Baseline: number, statement, focus, the score's bar (column 3), the score. */
  function BaselineItem(ratings: Ratings, n: int, colour: string): RowSpec
    requires 1 <= n <= ITEM_COUNT
  {
    RowSpec([Num(n), Str(ItemText(n)), Str(FocusOf(n)), Null, Num(Score(ratings, n))], ITEM_ALIGNS,
            Some(CreateBarChart(Score(ratings, n) as real, colour)), Some(3))
  }

  /** The item rows of a Baseline items table, one per item in order. */
  function BaselineItemSpecs(ratings: Ratings, items: seq<int>, colour: string): (specs: seq<RowSpec>)
    requires forall j :: 0 <= j < |items| ==> 1 <= items[j] <= ITEM_COUNT
    ensures |specs| == |items| && forall j :: 0 <= j < |items| ==> specs[j] == BaselineItem(ratings, items[j], colour)
  {
    seq(|items|, j requires 0 <= j < |items| => BaselineItem(ratings, items[j], colour))
  }

  /** An items table of the Baseline: the items in order, bars in `colour`, header in `header`. */
  function BaselineItems(ratings: Ratings, items: seq<int>, header: string, colour: string): seq<seq<Cell>>
    requires forall j :: 0 <= j < |items| ==> 1 <= items[j] <= ITEM_COUNT
  {
    StyledTable(ITEM_HEADERS, header, BaselineItemSpecs(ratings, items, colour))
  }

  /** The Baseline's table for the `k`-th indicator, in the indicator's colour. */
  function BaselineIndicatorTable(ratings: Ratings, k: int): seq<seq<Cell>>
    requires 0 <= k < AXES
  {
    IndicatorItemsAreItems(IndicatorAt(k));
    var colour := IndicatorColour(IndicatorAt(k));
    BaselineItems(ratings, IndicatorItems(IndicatorAt(k)), Hexless(colour), colour)
  }

  /** The Baseline's four indicator tables, in table order. */
  function BaselineIndicatorTables(ratings: Ratings): seq<seq<seq<Cell>>>
  {
    seq(AXES, k requires 0 <= k < AXES => BaselineIndicatorTable(ratings, k))
  }

  /** The document `generate_baseline_report` writes for `data`, or the error it raises. */
  function BaselineOf(data: Option<Store.ParticipantData>): (r: Result<Baseline, ReportError>)
    ensures r.Success? <==> BaselineInput(data).Success?
    ensures r.Failure? ==> r.error == BaselineInput(data).error
  {
    match BaselineInput(data)
    case Failure(e) => Failure(e)
    case Success(d) => Success(BaselineDocument(d.pre.value))
  }

  /** The Baseline document of a participant's PRE stage. */
  function BaselineDocument(pre: Store.Stage): Baseline
  {
    Baseline(RadarLayers(CalculateIndicatorScores(pre.ratings)), BaselineSummary(pre.ratings),
             BaselineIndicatorTables(pre.ratings), BaselineOverallTable(pre.ratings),
             PreReflections(pre.openResponses))
  }

  /** The table of the two overall items, in the brand purple. */
  function BaselineOverallTable(ratings: Ratings): seq<seq<Cell>>
  {
    BaselineItems(ratings, [OVERALL_FIRST, OVERALL_LAST], HEADER_PURPLE, PURPLE)
  }

  /** The summary table: one `_add_table_row` per indicator, then the directly filled OVERALL row. */
  method BuildBaselineSummary(ratings: Ratings) returns (rows: seq<seq<Cell>>)
    ensures rows == BaselineSummary(ratings)
  {
    var specs := ScoreRows(CalculateIndicatorScores(ratings));
    assert Fits(|SCORE_HEADERS|, specs);
    rows := BuildTable(SCORE_HEADERS, HEADER_PURPLE, specs);
    rows := rows + [OverallRow([Str("OVERALL"), Fixed(CalculateOverallScore(ratings))])];
  }

  /** One items table: a bar chart drawn and a row added for each item in turn. */
  method BuildBaselineItems(ratings: Ratings, items: seq<int>, header: string, colour: string)
    returns (rows: seq<seq<Cell>>)
    requires forall j :: 0 <= j < |items| ==> 1 <= items[j] <= ITEM_COUNT
    ensures rows == BaselineItems(ratings, items, header, colour)
  {
    rows := BuildTable(ITEM_HEADERS, header, BaselineItemSpecs(ratings, items, colour));
  }

  /** The loop over the indicator table: one items table per indicator, in its colour. */
  method BuildBaselineIndicatorTables(ratings: Ratings) returns (tables: seq<seq<seq<Cell>>>)
    ensures tables == BaselineIndicatorTables(ratings)
  {
    tables := [];
    for k := 0 to AXES
      invariant |tables| == k
      invariant forall j :: 0 <= j < k ==> tables[j] == BaselineIndicatorTable(ratings, j)
    {
      var rows := BuildBaselineIndicatorTable(ratings, k);
      tables := tables + [rows];
    }
  }

  /** The items table of the `k`-th indicator, its bars and header in the indicator's colour. */
  method BuildBaselineIndicatorTable(ratings: Ratings, k: int) returns (rows: seq<seq<Cell>>)
    requires 0 <= k < AXES
    ensures rows == BaselineIndicatorTable(ratings, k)
  {
    var indicator := IndicatorAt(k);
    var colour := IndicatorColour(indicator);
    IndicatorItemsAreItems(indicator);
    rows := BuildBaselineItems(ratings, IndicatorItems(indicator), Hexless(colour), colour);
  }

  /** `generate_baseline_report`. */
  method GenerateBaselineReport(data: Option<Store.ParticipantData>) returns (r: Result<Baseline, ReportError>)
    ensures r == BaselineOf(data)
  {
    var input := BaselineInput(data);
    if input.Failure? {
      return Failure(input.error);
    }
    var pre := input.value.pre.value;
    var radar := CreateRadarChart(CalculateIndicatorScores(pre.ratings));
    var summary := BuildBaselineSummary(pre.ratings);
    var tables := BuildBaselineIndicatorTables(pre.ratings);
    var overallTable := BuildBaselineOverallTable(pre.ratings);
    r := Success(Baseline(radar, summary, tables, overallTable, PreReflections(pre.openResponses)));
  }

  /** The table of the two overall items, bars in the brand purple. */
  method BuildBaselineOverallTable(ratings: Ratings) returns (rows: seq<seq<Cell>>)
    ensures rows == BaselineOverallTable(ratings)
  {
    rows := BuildBaselineItems(ratings, [OVERALL_FIRST, OVERALL_LAST], HEADER_PURPLE, PURPLE);
  }

  // ---------------------------------------------------------------- the Progress report

  const PROGRESS_HEADERS := ["Indicator", "Pre", "Post", "Change", "Cohort"]
  const CHANGE_HEADERS := ["#", "Statement", "Focus", "Pre", "Post", "", "Change"]
  const CHANGE_ALIGNS := [Center, Left, Center, Center, Center, Center, Center]

  datatype Progress = Progress(radar: seq<Layer>, summary: seq<seq<Cell>>,
                               indicatorTables: seq<seq<seq<Cell>>>, reflections: seq<Reflection>)

  /**
   * What `generate_progress_report` needs: participant data with both a PRE and a POST stage
   * (else its ValueError), a role to write in the information table (a None cell text raises
   * TypeError), and a name with a first word (else `split()[0]` raises IndexError).
   * The participant's cohort is not used.
   */
  function ProgressInput(data: Option<Store.ParticipantData>): (r: Result<Store.ParticipantData, ReportError>)
    ensures r == Failure(ValueError(PRE_AND_POST_REQUIRED)) <==>
      data.None? || data.value.pre.None? || data.value.post.None?
    ensures r == Failure(TypeError) <==>
      data.Some? && data.value.pre.Some? && data.value.post.Some? && data.value.participant.role.None?
    ensures r == Failure(IndexError) <==>
      data.Some? && data.value.pre.Some? && data.value.post.Some? && data.value.participant.role.Some? &&
      IsBlank(data.value.participant.name)
    ensures r.Success? ==> data == Some(r.value) && r.value.pre.Some? && r.value.post.Some?
  {
    if data.None? || data.value.pre.None? || data.value.post.None? then Failure(ValueError(PRE_AND_POST_REQUIRED))
    else if data.value.participant.role.None? then Failure(TypeError)
    else if IsBlank(data.value.participant.name) then Failure(IndexError)
    else Success(data.value)
  }

  /** A Progress summary row: PRE, POST, the signed change and the cohort's POST average. */
  function ProgressRow(pre: map<Indicator, real>, post: map<Indicator, real>, cohort: map<Indicator, real>, k: int): (r: RowSpec)
    requires 0 <= k < AXES
    ensures |r.values| == |PROGRESS_HEADERS|
  {
    var i := IndicatorAt(k);
    RowSpec([Str(IndicatorName(i)), Fixed(Get(pre, i)), Fixed(Get(post, i)), Change(Get(post, i) - Get(pre, i)),
             Fixed(Get(cohort, i))],
            [Left, Center, Center, Center, Center], None, None)
  }

  /** The Progress summary's indicator rows, in table order. */
  function ProgressRows(pre: map<Indicator, real>, post: map<Indicator, real>, cohort: map<Indicator, real>): (rows: seq<RowSpec>)
    ensures |rows| == AXES && forall k :: 0 <= k < |rows| ==> rows[k] == ProgressRow(pre, post, cohort, k)
  {
    seq(AXES, k requires 0 <= k < AXES => ProgressRow(pre, post, cohort, k))
  }

  /** The Progress summary's indicator rows under their header, for the participant's scores and the cohort's. */
  function ProgressIndicatorRows(pre: map<Indicator, real>, post: map<Indicator, real>, cohort: map<Indicator, real>): seq<seq<Cell>>
  {
    StyledTable(PROGRESS_HEADERS, HEADER_PURPLE, ProgressRows(pre, post, cohort))
  }

  /** The Progress OVERALL row: PRE, POST, the signed change and the cohort's POST overall average. */
  function ProgressOverallRow(preRatings: Ratings, postRatings: Ratings, cohort: Averages): seq<Cell>
  {
    var preOverall := CalculateOverallScore(preRatings);
    var postOverall := CalculateOverallScore(postRatings);
    OverallRow([Str("OVERALL"), Fixed(preOverall), Fixed(postOverall), Change(postOverall - preOverall),
                Fixed(CohortOverall(cohort))])
  }

  /** The Progress summary: one row per indicator, then the OVERALL row, against the cohort's POST averages. */
  function ProgressSummary(preRatings: Ratings, postRatings: Ratings, cohort: Averages): seq<seq<Cell>>
  {
    ProgressIndicatorRows(CalculateIndicatorScores(preRatings), CalculateIndicatorScores(postRatings),
                          CohortIndicatorScores(cohort)) +
    [ProgressOverallRow(preRatings, postRatings, cohort)]
  }

  /** An item row of the Progress report: both scores, their comparison bar (column 5), the change. */
  function ProgressItem(preRatings: Ratings, postRatings: Ratings, n: int, colour: string): RowSpec
    requires 1 <= n <= ITEM_COUNT
  {
    var pre := Score(preRatings, n);
    var post := Score(postRatings, n);
    RowSpec([Num(n), Str(ItemText(n)), Str(FocusOf(n)), Num(pre), Num(post), Null, Str(ChangeString(post - pre))],
            CHANGE_ALIGNS, Some(CreateComparisonBarChart(pre as real, post as real, colour)), Some(5))
  }

  /** The item rows of a Progress items table, one per item in order. */
  function ProgressItemSpecs(preRatings: Ratings, postRatings: Ratings, items: seq<int>, colour: string)
    : (specs: seq<RowSpec>)
    requires forall j :: 0 <= j < |items| ==> 1 <= items[j] <= ITEM_COUNT
    ensures |specs| == |items| &&
      forall j :: 0 <= j < |items| ==> specs[j] == ProgressItem(preRatings, postRatings, items[j], colour)
  {
    seq(|items|, j requires 0 <= j < |items| => ProgressItem(preRatings, postRatings, items[j], colour))
  }

  /** An items table of the Progress report: the items in order, bars in `colour`, header in `header`. */
  function ProgressItems(preRatings: Ratings, postRatings: Ratings, items: seq<int>, header: string, colour: string)
    : seq<seq<Cell>>
    requires forall j :: 0 <= j < |items| ==> 1 <= items[j] <= ITEM_COUNT
  {
    StyledTable(CHANGE_HEADERS, header, ProgressItemSpecs(preRatings, postRatings, items, colour))
  }

  function ProgressIndicatorTable(preRatings: Ratings, postRatings: Ratings, k: int): seq<seq<Cell>>
    requires 0 <= k < AXES
  {
    IndicatorItemsAreItems(IndicatorAt(k));
    var colour := IndicatorColour(IndicatorAt(k));
    ProgressItems(preRatings, postRatings, IndicatorItems(IndicatorAt(k)), Hexless(colour), colour)
  }

  function ProgressIndicatorTables(preRatings: Ratings, postRatings: Ratings): seq<seq<seq<Cell>>>
  {
    seq(AXES, k requires 0 <= k < AXES => ProgressIndicatorTable(preRatings, postRatings, k))
  }

  /**
   * The document `generate_progress_report` writes for `data`, given the cohort's POST
   * averages per item, or the error it raises.
   */
  function ProgressOf(data: Option<Store.ParticipantData>, cohort: Averages): (r: Result<Progress, ReportError>)
    ensures r.Success? <==> ProgressInput(data).Success?
    ensures r.Failure? ==> r.error == ProgressInput(data).error
  {
    match ProgressInput(data)
    case Failure(e) => Failure(e)
    case Success(d) =>
      var pre := d.pre.value;
      var post := d.post.value;
      Success(Progress(ComparisonRadarLayers(CalculateIndicatorScores(pre.ratings), CalculateIndicatorScores(post.ratings)),
                       ProgressSummary(pre.ratings, post.ratings, cohort),
                       ProgressIndicatorTables(pre.ratings, post.ratings),
                       PostReflections(pre.openResponses, post.openResponses)))
  }

  method BuildProgressSummary(preRatings: Ratings, postRatings: Ratings, cohort: Averages) returns (rows: seq<seq<Cell>>)
    ensures rows == ProgressSummary(preRatings, postRatings, cohort)
  {
    var specs := ProgressRows(CalculateIndicatorScores(preRatings), CalculateIndicatorScores(postRatings),
                              CohortIndicatorScores(cohort));
    assert Fits(|PROGRESS_HEADERS|, specs);
    rows := BuildTable(PROGRESS_HEADERS, HEADER_PURPLE, specs);
    rows := rows + [ProgressOverallRow(preRatings, postRatings, cohort)];
  }

  method BuildProgressItems(preRatings: Ratings, postRatings: Ratings, items: seq<int>, header: string, colour: string)
    returns (rows: seq<seq<Cell>>)
    requires forall j :: 0 <= j < |items| ==> 1 <= items[j] <= ITEM_COUNT
    ensures rows == ProgressItems(preRatings, postRatings, items, header, colour)
  {
    rows := BuildTable(CHANGE_HEADERS, header, ProgressItemSpecs(preRatings, postRatings, items, colour));
  }

  method BuildProgressIndicatorTables(preRatings: Ratings, postRatings: Ratings) returns (tables: seq<seq<seq<Cell>>>)
    ensures tables == ProgressIndicatorTables(preRatings, postRatings)
  {
    tables := [];
    for k := 0 to AXES
      invariant |tables| == k
      invariant forall j :: 0 <= j < k ==> tables[j] == ProgressIndicatorTable(preRatings, postRatings, j)
    {
      var rows := BuildProgressIndicatorTable(preRatings, postRatings, k);
      tables := tables + [rows];
    }
  }

  /** The change table of the `k`-th indicator, its bars and header in the indicator's colour. */
  method BuildProgressIndicatorTable(preRatings: Ratings, postRatings: Ratings, k: int) returns (rows: seq<seq<Cell>>)
    requires 0 <= k < AXES
    ensures rows == ProgressIndicatorTable(preRatings, postRatings, k)
  {
    var indicator := IndicatorAt(k);
    var colour := IndicatorColour(indicator);
    IndicatorItemsAreItems(indicator);
    rows := BuildProgressItems(preRatings, postRatings, IndicatorItems(indicator), Hexless(colour), colour);
  }

  /** `generate_progress_report`, with the cohort's POST averages passed in. */
  method GenerateProgressReport(data: Option<Store.ParticipantData>, cohort: Averages) returns (r: Result<Progress, ReportError>)
    ensures r == ProgressOf(data, cohort)
  {
    var input := ProgressInput(data);
    if input.Failure? {
      return Failure(input.error);
    }
    var pre := input.value.pre.value;
    var post := input.value.post.value;
    var radar := CreateComparisonRadarChart(CalculateIndicatorScores(pre.ratings), CalculateIndicatorScores(post.ratings));
    var summary := BuildProgressSummary(pre.ratings, post.ratings, cohort);
    var tables := BuildProgressIndicatorTables(pre.ratings, post.ratings);
    r := Success(Progress(radar, summary, tables, PostReflections(pre.openResponses, post.openResponses)));
  }

  // ---------------------------------------------------------------- the Impact report

  const RESULT_HEADERS := ["Indicator", "Pre", "Post", "Change"]
  const FOCUS_HEADERS := ["Focus Area", "What It Measures", "Pre", "Post", "Change"]
  /** The focus table's fixed descriptions, in the order of the focus tags. */
  const FOCUS_DESCRIPTIONS: seq<string> := [
    "Understanding of concepts, processes, frameworks",
    "Recognition of own patterns, triggers, impact",
    "Self-belief and comfort in capability",
    "Actions, habits and practices"]

  datatype Impact = Impact(enrolment: string, increase: Value, radar: seq<Layer>,
                           results: seq<seq<Cell>>, foci: seq<seq<Cell>>,
                           takeaways: seq<string>, commitments: seq<string>, roi: (real, real))

  /** `[p for p in participants if p['pre'] and p['post']]`. */
  function Complete(ps: seq<Store.ParticipantData>): (r: seq<Store.ParticipantData>)
    ensures |r| <= |ps|
    ensures forall p :: p in r <==> p in ps && p.pre.Some? && p.post.Some?
  {
    if ps == [] then []
    else
      var last := ps[|ps| - 1];
      Complete(ps[..|ps| - 1]) + if last.pre.Some? && last.post.Some? then [last] else []
  }

  /**
   * What `generate_impact_report` needs from the cohort's data: the cohort, two participants with
   * both stages, and a programme to write in the information table (a None cell text raises
   * TypeError; the theme extraction before it raises nothing).
   */
  function ImpactInput(data: Option<Store.CohortData>): (r: Result<Store.CohortData, ReportError>)
    ensures r == Failure(ValueError(COHORT_NOT_FOUND)) <==> data.None?
    ensures r == Failure(ValueError(TOO_FEW_COMPLETE)) <==> data.Some? && |Complete(data.value.participants)| < 2
    ensures r == Failure(TypeError) <==>
      data.Some? && |Complete(data.value.participants)| >= 2 && data.value.cohort.programme.None?
    ensures r.Success? ==> data == Some(r.value)
  {
    if data.None? then Failure(ValueError(COHORT_NOT_FOUND))
    else if |Complete(data.value.participants)| < 2 then Failure(ValueError(TOO_FEW_COMPLETE))
    else if data.value.cohort.programme.None? then Failure(TypeError)
    else Success(data.value)
  }

  /**
   * `[p['post']['open_responses'].get(q, '') for p in ps if p['post']['open_responses'].get(q)]`:
   * the non-empty POST answers to question `q`, in participant order.
   */
  function PostAnswers(ps: seq<Store.ParticipantData>, q: int): (r: seq<string>)
    requires forall k :: 0 <= k < |ps| ==> ps[k].post.Some?
    ensures |r| <= |ps|
    ensures forall k :: 0 <= k < |r| ==>
      r[k] != "" && exists p :: p in ps && q in p.post.value.openResponses && p.post.value.openResponses[q] == Some(r[k])
    ensures forall p :: p in ps && q in p.post.value.openResponses && p.post.value.openResponses[q].Some? &&
                        p.post.value.openResponses[q].value != "" ==>
      p.post.value.openResponses[q].value in r
  {
    if ps == [] then []
    else
      var answers := ps[0].post.value.openResponses;
      var rest := PostAnswers(ps[1..], q);
      assert forall p :: p in ps[1..] ==> p in ps;
      assert forall p :: p in ps ==> p == ps[0] || p in ps[1..];
      (if q in answers && answers[q].Some? && answers[q].value != "" then [answers[q].value] else []) + rest
  }

  /** The comprehension keeps participant order: the answers of a concatenation are those of each part, in turn. */
  lemma {:induction false} PostAnswersAppend(a: seq<Store.ParticipantData>, b: seq<Store.ParticipantData>, q: int)
    requires forall k :: 0 <= k < |a| ==> a[k].post.Some?
    requires forall k :: 0 <= k < |b| ==> b[k].post.Some?
    ensures PostAnswers(a + b, q) == PostAnswers(a, q) + PostAnswers(b, q)
  {
    if a != [] {
      assert (a + b)[1..] == a[1..] + b;
      PostAnswersAppend(a[1..], b, q);
    } else {
      assert a + b == b;
    }
  }

  /** The answers as the theme extractor takes them. */
  function AsResponses(answers: seq<string>): (r: seq<Option<string>>)
    ensures |r| == |answers| && forall k :: 0 <= k < |r| ==> r[k] == Some(answers[k])
  {
    seq(|answers|, k requires 0 <= k < |answers| => Some(answers[k]))
  }

  /** A report error for what `format_themes_for_report` raised. */
  function FromFormatError(e: Themes.FormatError): ReportError
  {
    match e
    case TypeError => TypeError
    case AttributeError => AttributeError
  }

  /**
   * The paragraphs under a themes heading: the manual review note when there are no themes, the
   * error `format_themes_for_report` raises when the themes are not an array of objects (TypeError
   * for a value `for` cannot iterate, else AttributeError), else `"• "` before each formatted theme.
   */
  function ThemeLines(data: Themes.ThemeData): (lines: Result<seq<string>, ReportError>)
    ensures lines == Success([MANUAL_REVIEW]) <==> !Themes.HasThemes(Some(data))
    ensures lines.Failure? <==> !Themes.Formattable(Some(data))
    ensures lines.Failure? ==>
      lines.error == (if data.themes.value.NotIterable? then TypeError else AttributeError)
    ensures Themes.HasThemes(Some(data)) && lines.Success? ==>
      var themes := data.themes.value.entries;
      |lines.value| == |themes| &&
      forall k :: 0 <= k < |lines.value| ==>
        themes[k].ThemeEntry? &&
        lines.value[k] == "• " + Themes.FormatTheme(themes[k].theme, themes[k].count, data.total.GetOr(0))
  {
    if !Themes.HasThemes(Some(data)) then Success([MANUAL_REVIEW])
    else if !Themes.Formattable(Some(data)) then Failure(FromFormatError(Themes.FormatErrorOf(data.themes.value)))
    else
      var themes := data.themes.value.entries;
      var total := data.total.GetOr(0);
      var lines := seq(|themes|, k requires 0 <= k < |themes| => "• " + Themes.FormatTheme(themes[k].theme, themes[k].count, total));
      assert lines[0][0] == '•' != MANUAL_REVIEW[0];
      Success(lines)
  }

  /** The cohort line of the information table. */
  function Enrolment(d: Store.CohortData): string
  {
    IntToString(|d.participants|) + " enrolled | " + IntToString(d.preCompleted) + " pre | " +
    IntToString(d.postCompleted) + " post"
  }

  /**
   * The headline overall change, `f"+{post - pre:.1f}"`: the sign is written as `+` whatever
   * the sign of the change.
   */
  function Increase(preAvgs: Averages, postAvgs: Averages): (v: Value)
    ensures v.OneDecimal? && v.prefix == "+"
    ensures v.x == CohortOverall(postAvgs) - CohortOverall(preAvgs)
  {
    OneDecimal("+", CohortOverall(postAvgs) - CohortOverall(preAvgs))
  }

  /** An indicator row of the results table: cohort PRE and POST and the signed change. */
  function ResultRow(pre: map<Indicator, real>, post: map<Indicator, real>, k: int): (r: RowSpec)
    requires 0 <= k < AXES
    ensures |r.values| == |RESULT_HEADERS|
  {
    var i := IndicatorAt(k);
    RowSpec([Str(IndicatorName(i)), Fixed(Get(pre, i)), Fixed(Get(post, i)), Change(Get(post, i) - Get(pre, i))],
            [Left, Center, Center, Center], None, None)
  }

  /** A row of the focus table: the tag, what it measures, cohort PRE and POST and the change. */
  function FocusRow(pre: map<Focus, real>, post: map<Focus, real>, k: int): (r: RowSpec)
    requires 0 <= k < |FOCUS_TAGS|
    ensures |r.values| == |FOCUS_HEADERS|
  {
    var f := FOCUS_TAGS[k];
    RowSpec([Str(FocusName(f)), Str(FOCUS_DESCRIPTIONS[k]), Fixed(Get(pre, f)), Fixed(Get(post, f)),
             Change(Get(post, f) - Get(pre, f))],
            [Left, Left, Center, Center, Center], None, None)
  }

  function ResultRows(pre: map<Indicator, real>, post: map<Indicator, real>): (rows: seq<RowSpec>)
    ensures |rows| == AXES && forall k :: 0 <= k < |rows| ==> rows[k] == ResultRow(pre, post, k)
  {
    seq(AXES, k requires 0 <= k < AXES => ResultRow(pre, post, k))
  }

  function FocusRows(pre: map<Focus, real>, post: map<Focus, real>): (rows: seq<RowSpec>)
    ensures |rows| == |FOCUS_TAGS| && forall k :: 0 <= k < |rows| ==> rows[k] == FocusRow(pre, post, k)
  {
    seq(|FOCUS_TAGS|, k requires 0 <= k < |FOCUS_TAGS| => FocusRow(pre, post, k))
  }

  function ResultsTable(pre: map<Indicator, real>, post: map<Indicator, real>): seq<seq<Cell>>
  {
    StyledTable(RESULT_HEADERS, HEADER_PURPLE, ResultRows(pre, post))
  }

  function FocusTable(pre: map<Focus, real>, post: map<Focus, real>): seq<seq<Cell>>
  {
    StyledTable(FOCUS_HEADERS, HEADER_PURPLE, FocusRows(pre, post))
  }

  /**
   * The document `generate_impact_report` writes for `data`, given the cohort's PRE and POST
   * averages per item and the theme extractor with its service, or the error it raises.
   */
  function ImpactOf(data: Option<Store.CohortData>, preAvgs: Averages, postAvgs: Averages,
                    extractor: Themes.ThemeExtractor, call: Themes.Prompt -> Themes.Reply,
                    parse: string -> Themes.Parsed): (r: Result<Impact, ReportError>)
    reads extractor
  {
    match ImpactInput(data)
    case Failure(e) => Failure(e)
    case Success(d) =>
      ImpactFrom(d, preAvgs, postAvgs, ThemeLines(Takeaways(d, extractor, call, parse)),
                 ThemeLines(Commitments(d, extractor, call, parse)))
  }

  /**
   * The rest of `generate_impact_report` once the cohort passed the guard and its themes are
   * formatted: the takeaways are formatted first, so an error there comes first.
   */
  function ImpactFrom(d: Store.CohortData, preAvgs: Averages, postAvgs: Averages,
                      takeaways: Result<seq<string>, ReportError>,
                      commitments: Result<seq<string>, ReportError>): (r: Result<Impact, ReportError>)
    ensures r.Success? <==> takeaways.Success? && commitments.Success?
    ensures r.Failure? ==> r.error == if takeaways.Failure? then takeaways.error else commitments.error
    ensures r.Success? ==> r.value == ImpactDocument(d, preAvgs, postAvgs, takeaways.value, commitments.value)
  {
    if takeaways.Failure? then Failure(takeaways.error)
    else if commitments.Failure? then Failure(commitments.error)
    else Success(ImpactDocument(d, preAvgs, postAvgs, takeaways.value, commitments.value))
  }

  /** The Impact document of a cohort that passed the guard, with its two lists of theme bullets. */
  function ImpactDocument(d: Store.CohortData, preAvgs: Averages, postAvgs: Averages,
                          takeaways: seq<string>, commitments: seq<string>): (r: Impact)
    ensures r.takeaways == takeaways && r.commitments == commitments
  {
    Impact(Enrolment(d), Increase(preAvgs, postAvgs),
           ComparisonRadarLayers(CohortIndicatorScores(preAvgs), CohortIndicatorScores(postAvgs)),
           ResultsTable(CohortIndicatorScores(preAvgs), CohortIndicatorScores(postAvgs)),
           FocusTable(CohortFocusScores(preAvgs), CohortFocusScores(postAvgs)),
           takeaways, commitments, (AverageOf(preAvgs, OVERALL_LAST), AverageOf(postAvgs, OVERALL_LAST)))
  }

  /** The takeaway themes: extracted from the complete participants' non-empty answers to POST question 1. */
  function Takeaways(d: Store.CohortData, extractor: Themes.ThemeExtractor, call: Themes.Prompt -> Themes.Reply,
                     parse: string -> Themes.Parsed): Themes.ThemeData
    reads extractor
  {
    extractor.ExtractTakeaways(AsResponses(PostAnswers(Complete(d.participants), 1)), call, parse)
  }

  /** The commitment themes: extracted from the complete participants' non-empty answers to POST question 2. */
  function Commitments(d: Store.CohortData, extractor: Themes.ThemeExtractor, call: Themes.Prompt -> Themes.Reply,
                       parse: string -> Themes.Parsed): Themes.ThemeData
    reads extractor
  {
    extractor.ExtractCommitments(AsResponses(PostAnswers(Complete(d.participants), 2)), call, parse)
  }

  /** The results table, one `_add_table_row` per indicator. */
  method BuildResultsTable(pre: map<Indicator, real>, post: map<Indicator, real>) returns (rows: seq<seq<Cell>>)
    ensures rows == ResultsTable(pre, post)
  {
    var specs := ResultRows(pre, post);
    assert Fits(|RESULT_HEADERS|, specs);
    rows := BuildTable(RESULT_HEADERS, HEADER_PURPLE, specs);
  }

  /** The focus table, one `_add_table_row` per focus tag. */
  method BuildFocusTable(pre: map<Focus, real>, post: map<Focus, real>) returns (rows: seq<seq<Cell>>)
    ensures rows == FocusTable(pre, post)
  {
    var specs := FocusRows(pre, post);
    assert Fits(|FOCUS_HEADERS|, specs);
    rows := BuildTable(FOCUS_HEADERS, HEADER_PURPLE, specs);
  }

  /** The bullets loop under a themes heading, over what `format_themes_for_report` returns. */
  method ThemeParagraphs(data: Themes.ThemeData) returns (lines: Result<seq<string>, ReportError>)
    ensures lines == ThemeLines(data)
  {
    var themes := Themes.FormatThemesForReport(Some(data));
    if themes.Failure? {
      return Failure(FromFormatError(themes.error));
    }
    if themes.value == [] {
      return Success([MANUAL_REVIEW]);
    }
    var bullets := [];
    for k := 0 to |themes.value|
      invariant |bullets| == k
      invariant forall j :: 0 <= j < k ==> bullets[j] == "• " + themes.value[j]
    {
      bullets := bullets + ["• " + themes.value[k]];
    }
    assert bullets == ThemeLines(data).value;
    lines := Success(bullets);
  }

  /** `generate_impact_report`, with the cohort's averages and the theme service passed in. */
  method GenerateImpactReport(data: Option<Store.CohortData>, preAvgs: Averages, postAvgs: Averages,
                              extractor: Themes.ThemeExtractor, call: Themes.Prompt -> Themes.Reply,
                              parse: string -> Themes.Parsed) returns (r: Result<Impact, ReportError>)
    ensures r == ImpactOf(data, preAvgs, postAvgs, extractor, call, parse)
  {
    var input := ImpactInput(data);
    if input.Failure? {
      return Failure(input.error);
    }
    var d := input.value;
    var takeaways := Takeaways(d, extractor, call, parse);
    var commitments := Commitments(d, extractor, call, parse);
    var radar := CreateComparisonRadarChart(CohortIndicatorScores(preAvgs), CohortIndicatorScores(postAvgs));
    var results := BuildResultsTable(CohortIndicatorScores(preAvgs), CohortIndicatorScores(postAvgs));
    var foci := BuildFocusTable(CohortFocusScores(preAvgs), CohortFocusScores(postAvgs));
    var takeawayLines := ThemeParagraphs(takeaways);
    if takeawayLines.Failure? {
      return Failure(takeawayLines.error);
    }
    var commitmentLines := ThemeParagraphs(commitments);
    if commitmentLines.Failure? {
      return Failure(commitmentLines.error);
    }
    r := Success(Impact(Enrolment(d), Increase(preAvgs, postAvgs), radar, results, foci,
                        takeawayLines.value, commitmentLines.value,
                        (AverageOf(preAvgs, OVERALL_LAST), AverageOf(postAvgs, OVERALL_LAST))));
  }
}
