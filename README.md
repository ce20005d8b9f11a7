# Launch Readiness assessment: a verified model

A leadership programme measures its participants twice, with a PRE assessment before the
programme and a POST assessment after it. Each assessment has 32 statements, each rated on a
1–6 scale, plus a few open questions. The statements fall into four Readiness Indicators: items
1–6, 7–14, 15–22 and 23–30. Items 31–32 form the Overall block. Each item also carries one of
four focus tags: Knowledge, Awareness, Confidence or Behaviour.

This project models the core of the system in Dafny:

- **Framework** (`framework.dfy`): the framework tables and the lookups over them. These are the
  indicator of an item, the items of an indicator, the items of a focus tag, and the focus
  summary.
- **Store** (`database.dfy`): the SQLite store, modelled as a `Database` class. Each table is a
  map field: cohorts, participants, assessments, ratings and open responses.
  - The methods create rows, upsert ratings and responses, mark an assessment started or
    completed, build and apply the `update_cohort` statement, and delete with cascades.
  - They also run the reporting queries: participant data and cohort data.
  - The uniqueness constraints, the score `CHECK` and the AUTOINCREMENT counters are part of the
    class invariant `Valid()`, or are failure results.
- **Scores** (`scores.dfy`): the score arithmetic.
  - An individual participant's indicator, overall and focus means are taken over the items
    that are present.
  - A cohort's means substitute 0 for a missing item average and always divide by the full item
    count.
  - The change rule gives `+` only for a strictly positive change.
  - An individual mean leaves out absent items; a cohort mean counts them as 0.
    `Scores.IncompleteDataMeansDiffer` shows that the two rules disagree on a one-rating input.
- **Charts** (`charts.dfy`): the radar chart and bar chart, modelled as the ordered layers they
  draw.
- **Tables** (`tables.dfy`): the styled report tables. A `Table` class appends data rows with
  alternating shading, an optional bar-chart picture, and empty text for a missing value.
- **Themes** (`themes.dfy`): theme extraction. The `ThemeExtractor` class covers:
  - whether a client is configured;
  - the filtering of blank responses;
  - the fallback result;
  - how a language-model reply is read: JSON first, then the outermost `{…}` block, else the
    fallback;
  - the report formatting of themes.
- **Reports** and **ReportFacts** (`reports.dfy`, `report_facts.dfy`): the Baseline, Progress and
  Impact reports.
  - Each report is a document value that a spec function computes. Each `Generate*Report`
    method is proved to build exactly that value through the `Table` class.
  - The input checks raise `ValueError`, `TypeError` or `IndexError`, and a theme that is not an
    object raises `AttributeError` (a `themes` value that cannot be iterated, `TypeError`), as the
    code does.
  - The `ReportFacts` lemmas state what each table row shows, in terms of the score means.

All integers are unbounded. Scores are reals; how a number is written to one decimal place
(`:.1f`) is not modelled. A cell holds the value and the sign prefix that the code puts in front
of it.

## Model

| member | source | states |
|---|---|---|
| Framework.RangeOf | framework.py:19-24 | each indicator has one entry in the indicator range table |
| Framework.IndicatorRangesPartition | framework.py:19-24 | the four indicator ranges are non-empty and consecutive, start at 1, end at 30, are pairwise disjoint, and cover exactly items 1–30 |
| Framework.IntRange | framework.py:254-257 | `range(lo, hi + 1)`: length, elements in order, and membership exactly `lo <= x <= hi` |
| Framework.FirstRangeContaining | framework.py:243-245 | the first range holding `n`, or none when no range holds it |
| Framework.GroupOfCharacterized | framework.py:241-248 | an item's group is `g` exactly when the item lies in `g`'s range; there is no group exactly outside 1–32 |
| Framework.GetIndicatorForItem | framework.py:241-248 | returns the indicator or Overall whose range holds the item, and `None` exactly outside 1–32 |
| Framework.ItemTableAgreesWithRanges | framework.py:54-225 | the indicator written on each item of the item table agrees with the range lookup |
| Framework.GetItemsForIndicator | framework.py:251-258 | the consecutive items of a named indicator or of Overall; `[]` for an unknown name |
| Framework.GroupNamesRoundTrip | framework.py:19-24 | looking up a group's name gives the group back; names are unique |
| Framework.ItemsForIndicatorRoundTrip | framework.py:241-258 | `n` is among the items of `g`'s name exactly when `n`'s group is `g` |
| Framework.NumbersTagged | framework.py:261-263 | the numbers of a table's items with a given tag, within the table's numbering |
| Framework.NumbersTaggedIncreasing | framework.py:261-263 | the item numbers with a tag are strictly increasing, in dictionary order |
| Framework.NumbersTaggedSound | framework.py:261-263 | every listed number has the tag |
| Framework.NumbersTaggedComplete | framework.py:261-263 | every item with the tag is listed |
| Framework.NumbersTaggedMembers | framework.py:261-263 | membership in the list is exactly "in the table and tagged `f`" |
| Framework.NumbersTaggedAppend | framework.py:261-263 | appending an item extends the list exactly when the item has the tag |
| Framework.TaggedCountsSum | framework.py:266-271 | the four tag counts add up to the number of items |
| Framework.GetItemsByFocus | framework.py:261-263 | the items of a focus, increasing and within 1–32 |
| Framework.ItemsByFocusMembers | framework.py:261-263 | `n` is listed for `f` exactly when item `n` is tagged `f` |
| Framework.FocusListsPartition | framework.py:54-225 | every item appears under exactly one focus |
| Framework.FocusItemsNonEmpty | framework.py:54-225 | every focus has at least one item, so no focus mean divides by zero |
| Framework.GetFocusSummary | framework.py:266-271 | one count per focus, equal to the length of its item list; the counts add up to 32 |
| Framework.CountFocusTags | framework.py:266-271 | the counting loop over any item table: each count is the number of items with that tag, and the counts add up to the table size |
| Text.NatToStringRoundTrip | report_generator.py:565 | reading back the decimal digits of `str(n)` gives `n` |
| Text.IntToStringRoundTrip | report_generator.py:821 | `str(i)` is a signed numeral whose value is `i` |
| Text.StripLeft | theme_extractor.py:60 | removes exactly the leading whitespace: the result is a suffix, starts with a non-space, and what was removed is blank |
| Text.StripRight | theme_extractor.py:60 | removes exactly the trailing whitespace |
| Text.Strip | theme_extractor.py:89 | defined as `StripRight` after `StripLeft`; `StripTrims` and `StripEnds` state what it keeps |
| Text.StripTrims | theme_extractor.py:89 | `s.strip()` is the stretch of `s` between its leading whitespace and a whitespace suffix |
| Text.StripEnds | theme_extractor.py:89 | `s.strip()` neither begins nor ends in whitespace |
| Text.StripEmptyIffBlank | theme_extractor.py:60 | `r.strip()` is empty exactly when `r` is all whitespace |
| Text.CountCharJoin | database.py:223 | when every part holds `each` placeholders and the separator holds none, the join holds `each` times the number of parts |
| Scores.PresentScores | report_generator.py:372 | the scores of the listed items that are present, at most one per item |
| Scores.CalculateIndicatorScores | report_generator.py:368-377 | one score per indicator |
| Scores.CalculateOverallScore | report_generator.py:379-384 | defined as 0 for an empty rating map and otherwise the mean of the rated items among 1–32; `OverallIsPresentMean` shows that the empty-map guard agrees with that mean, and `OverallScoreRange` bounds it |
| Scores.IndicatorScoresRange | report_generator.py:368-377 | for on-scale ratings, an indicator's score is 0 exactly when none of its items is rated, and lies in 1–6 otherwise |
| Scores.OverallIsPresentMean | report_generator.py:379-384 | the overall score is the mean of the rated items among 1–32; an empty rating map gives 0 |
| Scores.OverallIgnoresOtherKeys | report_generator.py:379-384 | ratings outside items 1–32 do not change the overall score |
| Scores.OverallScoreRange | report_generator.py:379-384 | the overall score is 0 exactly when no item 1–32 is rated, and lies in 1–6 otherwise |
| Scores.CalculateFocusScores | report_generator.py:386-395 | one score per focus |
| Scores.FocusScoresRange | report_generator.py:386-395 | a focus score is 0 exactly when none of its items is rated, and lies in 1–6 otherwise |
| Scores.PresentMeanRange | report_generator.py:372-374 | the mean over present items is 0 exactly when none is present, and lies on the scale otherwise |
| Scores.PresentScoresWithin | report_generator.py:372 | present scores stay within the bounds of the ratings |
| Scores.PresentScoresEmpty | report_generator.py:372 | no present scores exactly when no listed item is rated |
| Scores.PresentScoresComplete | report_generator.py:372 | with every item rated, the present scores are the ratings in item order |
| Scores.PresentScoresLocal | report_generator.py:372 | only the ratings of the listed items matter |
| Scores.MeanBounds | report_generator.py:374 | a mean of bounded scores stays within the bounds |
| Scores.SumConstant | report_generator.py:374 | a sum of equal scores is the score times the count |
| Scores.UniformMean | report_generator.py:372-374 | when every item carries rating `c`, any non-empty item mean is `c` |
| Scores.UniformRatingsIndicators | report_generator.py:368-377 | when every item carries rating `c`, every indicator score is `c` |
| Scores.UniformRatingsFoci | report_generator.py:386-395 | when every item carries rating `c`, every focus score is `c` |
| Scores.UniformRatingsOverall | report_generator.py:379-384 | when every item carries rating `c`, the overall score is `c` |
| Scores.CohortValues | report_generator.py:669 | `cohort_avgs.get(i, {}).get('avg', 0)` for each item, 0 for a missing one |
| Scores.CohortIndicatorScores | report_generator.py:666-670 | one cohort score per indicator |
| Scores.CohortFocusScores | report_generator.py:920-925 | one cohort score per focus |
| Scores.CohortMean | report_generator.py:668-670 | defined as the sum of the items' averages, 0 for a missing one, divided by the number of items; `CohortMeanRange` bounds it and `CompleteDataMeansAgree` relates it to the participant mean |
| Scores.CohortOverall | report_generator.py:671 | defined as the sum of the averages of items 1–32, 0 for a missing one, divided by 32 |
| Scores.CohortOverallIsMean | report_generator.py:671 | the cohort overall score is the cohort mean over items 1–32 |
| Scores.CohortOverallRange | report_generator.py:671 | averages in 0–6 give a cohort overall score in 0–6 |
| Scores.CohortMeanRange | report_generator.py:669-671 | cohort means of averages in 0–6 lie in 0–6 |
| Scores.CountPresent | report_generator.py:669 | the number of items that have an average |
| Scores.CohortSumUniform | report_generator.py:669-670 | with every average equal to `c`, the cohort sum is `c` times the number of items present |
| Scores.CohortMeanUniform | report_generator.py:669-670 | missing averages pull the cohort mean below `c`, in proportion to how many are missing |
| Scores.CohortSumMatchesPresent | report_generator.py:669-670 | with complete data, the zero-substituting cohort sum equals the participant sum |
| Scores.CompleteDataMeansAgree | report_generator.py:372-374 | with complete data, the participant rule and the cohort rule give the same mean |
| Scores.IncompleteDataMeansDiffer | report_generator.py:372-374 | with one rating of 6 for item 1, the participant rule gives 6 and the cohort rule gives 1 |
| Scores.SingleRatingParticipant | report_generator.py:372-374 | one rating of 6 on Self-Readiness gives a participant score of 6 |
| Scores.SingleRatingCohort | report_generator.py:669-670 | one average of 6 on Self-Readiness gives a cohort score of 1 |
| Scores.PresentScoresSingle | report_generator.py:372 | with only item 1 rated, the present scores of items 1–6 are that one rating |
| Scores.CohortValuesSingle | report_generator.py:669 | with only item 1 averaged, the cohort values of items 1–6 are that average and five zeros |
| Scores.ChangeString | report_generator.py:821 | `f"+{d}" if d > 0 else str(d)`: starts with `+` exactly for a positive change, `-` exactly for a negative one, and is `0` exactly for no change |
| Scores.SignPrefix | report_generator.py:753 | the prefix is `+` exactly when the change is positive, and empty otherwise |
| Scores.ChangeStringRoundTrip | report_generator.py:821 | the change string reads back as the change |
| Scores.ChangeRulesAgree | report_generator.py:753-821 | the integer and one-decimal change rules put the same sign in front |
| Charts.RadarValues | report_generator.py:110-111 | one value per indicator in table order, 0 for a missing indicator |
| Charts.Closed | report_generator.py:121 | the polygon's value list returns to its first point |
| Charts.MarkerColoursAreIndicatorColours | report_generator.py:135-136 | the marker colours are the indicators' own colours, axis by axis |
| Charts.MarkerPairsAt | report_generator.py:200-204 | axis `j`'s PRE marker comes just before its POST marker |
| Charts.CreateRadarChart | report_generator.py:107-165 | a purple area, a solid purple 3-wide outline, then one 150-size marker per axis at z 5 in that axis's colour |
| Charts.CreateComparisonRadarChart | report_generator.py:167-239 | the grey dashed PRE polygon, then the solid green POST polygon, then PRE and POST markers axis by axis; every POST marker is larger than, and above, every PRE marker |
| Charts.CreateBarChart | report_generator.py:241-258 | a full 0–6 grey track, then the score bar in the given colour |
| Charts.CreateComparisonBarChart | report_generator.py:260-283 | the track, the filled POST bar, then the dashed unfilled PRE outline; only the last bar has no fill |
| Tables.RowShade | report_generator.py:341 | white exactly for an even row index and cream exactly for an odd one |
| Tables.ShadingAlternates | report_generator.py:341 | adjacent rows differ in shade; rows two apart match |
| Tables.DataRow | report_generator.py:337-366 | every valued column is shaded by parity; the bar column holds the picture exactly when an image is given; `None` becomes empty text; alignment comes from the list when present; columns past the values stay blank |
| Tables.HeaderRow | report_generator.py:315-335 | one centred header cell per header, on the header colour |
| Tables.Table.constructor | report_generator.py:315-335 | a table with `len(headers)` columns whose only row is the header row |
| Tables.Table.AddTableRow | report_generator.py:337-366 | appends exactly the data row, keeps every earlier row and the column count, and keeps `Valid()` |
| Themes.ValidResponses | theme_extractor.py:60 | keeps the non-blank responses only, never more than there are |
| Themes.NoValidResponsesIffAllBlank | theme_extractor.py:60-63 | no valid responses exactly when each one is `None` or blank |
| Themes.ValidResponsesKeepsAnswered | theme_extractor.py:60 | every non-blank response is kept |
| Themes.ValidResponsesComplete | theme_extractor.py:60 | every non-blank response is among the valid ones |
| Themes.Fallback | theme_extractor.py:110-116 | no themes, the response count, and the manual-review note |
| Themes.FirstIndex | theme_extractor.py:97 | the first occurrence of a character, or none |
| Themes.LastIndex | theme_extractor.py:97 | the last occurrence of a character, or none |
| Themes.BraceSpanIsLeftmostLongest | theme_extractor.py:97 | `\{.*\}` with DOTALL finds no match exactly when no `{` precedes a `}`; otherwise it matches from the first `{` to the last `}`, which encloses every other brace pair |
| Themes.BraceBlock | theme_extractor.py:97-99 | the matched block starts with `{` and ends with `}` |
| Themes.ReadReply | theme_extractor.py:91-101 | a reply is readable exactly when it parses as a JSON object, or it is not JSON and its `{...}` block parses as one; the record is that object |
| Themes.Answer | theme_extractor.py:82-108 | a raised service call is never readable; a reply is read after stripping it |
| Themes.Take | theme_extractor.py:151 | `pre_concerns[:10]`: exactly the first `min(n, len(s))` elements, in order |
| Themes.Present | theme_extractor.py:151 | only truthy concerns, each one from the input, and every truthy concern of the input is kept |
| Themes.PresentAppend | theme_extractor.py:151 | the filter keeps order: the concerns kept from a concatenation are those kept from each part, in turn |
| Themes.ThemeExtractor.constructor | theme_extractor.py:19-35 | the key from secrets, else from the environment; a client exactly when a non-empty key exists and the library is installed |
| Themes.ThemeExtractor.ExtractThemes | theme_extractor.py:41-108 | no client gives the fallback over all responses; no valid responses gives an empty result with a total of 0; otherwise the reply is read, with the valid responses' count as total or the fallback over them; the total never exceeds the response count |
| Themes.ReplyWithoutBracesFallsBack | theme_extractor.py:92-101 | a reply that is neither JSON nor holds a brace block gives the fallback |
| Themes.ReadableReplyCountsAnswered | theme_extractor.py:103-104 | a readable reply's themes are kept, and the total is the number of valid responses |
| Themes.ThemeExtractor.ExtractTakeaways | theme_extractor.py:118-124 | the total never exceeds the number of responses |
| Themes.ThemeExtractor.ExtractCommitments | theme_extractor.py:126-132 | the total never exceeds the number of responses |
| Themes.ThemeExtractor.ExtractConcernReflections | theme_extractor.py:134-189 | no client gives the fallback over the reflections; no reflections gives an empty result; otherwise the reply is read, with the non-blank reflections' count as total or the fallback over all reflections |
| Themes.ConcernPromptFor | theme_extractor.py:148-163 | at most 10 concerns, each a non-empty one from the first ten, and every non-empty concern among the first ten is included; only non-blank reflections, and every non-blank reflection is included |
| Themes.FormatTheme | theme_extractor.py:199-206 | the theme text, extended by the mention suffix exactly when both the count and the total are non-zero |
| Themes.FormatThemesForReport | theme_extractor.py:192-208 | `[]` without themes (absent or falsy); exactly when the themes are not an array of objects, the error the loop raises: TypeError for a non-iterable value (a number or `true`), AttributeError from `t.get` otherwise; else one formatted line per theme, in order |
| Themes.FormatEntries | theme_extractor.py:197-208 | over an array of entries: AttributeError exactly when some entry is not an object; else, in order, one line per entry, the entry formatted against the record's total |
| Store.Rows | database.py:419-434 | the rows that a batch upsert writes for one assessment's entries |
| Store.RowsStep | database.py:419-434 | upserting one more key is a single-key map update |
| Store.BatchIsSingleUpserts | database.py:419-434 | a batch upsert is the earlier batch followed by a single upsert of the last key |
| Store.UpsertsStayOnScale | database.py:153-157 | upserting on-scale scores keeps every stored score on the scale |
| Store.StartAll | database.py:382-389 | sets `started_at` on the assessments with the token only when it is NULL; other rows are untouched |
| Store.CompleteAll | database.py:391-398 | sets `completed_at` on the assessments with the token, overwriting; other rows are untouched |
| Store.MarkStartedOnlyOnce | database.py:385 | marking started twice keeps the first time |
| Store.MarkCompletedOverwrites | database.py:394 | marking completed twice keeps the second time |
| Store.Kept | database.py:217-218 | every kept entry is a whitelisted keyword argument, and every whitelisted one is kept |
| Store.KeptInOrder | database.py:217-218 | the kept entries are the whitelisted keyword arguments at strictly increasing positions, every whitelisted position included: each once, in the order given |
| Store.FieldNamesHaveNoPlaceholder | database.py:217 | no whitelisted column name holds `?` |
| Store.AssignmentHasOnePlaceholder | database.py:223 | `f'{k} = ?'` has exactly one placeholder |
| Store.SetClausePlaceholders | database.py:223 | the SET clause has one placeholder per kept field |
| Store.UpdateStatement | database.py:215-230 | no statement exactly when no field is kept; otherwise placeholders equal parameters, which are the kept values and then the cohort id |
| Store.Apply | database.py:215-230 | the updated cohort takes the last given value of each field, or fails NOT NULL when the name becomes NULL |
| Store.UnnamedFieldKept | database.py:215-230 | a field that no update names keeps its value |
| Store.AssessmentsOf | database.py:241-244 | the assessments of the given participants |
| Store.NotOf | database.py:252 | the assessments left after deleting the given participants' ones |
| Store.Without | database.py:247-250 | the rating or response rows left after deleting the given assessments' rows |
| Store.WithoutTwice | database.py:247-250 | deleting two sets of assessments' rows in turn is deleting their union |
| Store.NotOfTwice | database.py:241-252 | deleting two groups of participants' assessments in turn is deleting the union |
| Store.CountCompleted | database.py:534-540 | the number of participants with a completed stage |
| Store.CountCompletedAppend | database.py:534-540 | appending one participant adds 1 to a counter exactly when that stage is present |
| Store.NoneCompleted | database.py:534-540 | a counter is 0 exactly when no participant has that stage |
| Store.Database.constructor | database.py:103-175 | empty tables that satisfy the invariant, with every id counter at 1 |
| Store.Database.CreateCohort | database.py:194-205 | adds the cohort under the next fresh id and returns that id; nothing else changes |
| Store.Database.CreateAssessment | database.py:350-361 | a used token fails UNIQUE and changes nothing; otherwise adds the assessment under the next id with no times set and returns the token |
| Store.Database.CreateParticipant | database.py:262-277 | adds the participant under the next id, then its PRE and POST assessments (the second is refused if its token clashes); the assessment counter advances by exactly the 0, 1 or 2 rows inserted, and the cohorts and their counter are untouched |
| Store.Database.SaveRating | database.py:407-417 | upserts the score when it is on the scale, and otherwise fails CHECK and changes nothing |
| Store.Database.SaveAllRatings | database.py:419-434 | upserts every entry in one transaction, or with any off-scale score fails and saves nothing |
| Store.Database.SaveOpenResponse | database.py:446-456 | upserts the response; nothing else changes |
| Store.Database.SaveAllOpenResponses | database.py:458-473 | upserts every entry; nothing else changes |
| Store.Database.MarkAssessmentStarted | database.py:382-389 | the assessments become `StartAll` of the old ones; nothing else changes |
| Store.Database.MarkAssessmentCompleted | database.py:391-398 | the assessments become `CompleteAll` of the old ones; nothing else changes |
| Store.Database.UpdateCohort | database.py:215-230 | nothing changes without kept fields or for an unknown cohort; otherwise the cohort becomes `Apply` of the kept updates, or the call fails NOT NULL and nothing changes |
| Store.Database.DeleteParticipant | database.py:325-344 | removes the participant, its assessments and their ratings and responses, and nothing else |
| Store.Database.MembersOf | database.py:238-239 | the participants of a cohort |
| Store.Database.DeleteCohort | database.py:232-260 | removes the cohort, its participants, their assessments and those assessments' ratings and responses |
| Store.RunUpserts | database.py:419-434 | the transaction loop: all rows upserted when every entry passes the check, otherwise no result |
| Store.CascadeStep | database.py:241-252 | the per-participant cascade builds up to deleting the rows of the whole group |
| Store.PurgeParticipant | database.py:330-338 | deletes one participant's assessments and their rows |
| Store.PurgeParticipants | database.py:241-252 | the loop over a cohort's participants deletes all of their assessments and rows |
| Store.NothingPurged | database.py:241-252 | purging no participants changes nothing |
| Store.Database.GetAssessmentsForParticipant | database.py:371-380 | each bucket holds the participant's assessment of that type with the highest id (the last row read), or none |
| Store.Database.RatingsOf | database.py:436-444 | the assessment's ratings keyed by item number |
| Store.Database.ResponsesOf | database.py:475-483 | the assessment's responses keyed by question number |
| Store.Database.GetParticipantData | database.py:485-515 | none exactly for an unknown participant; otherwise the record, its cohort, and a PRE and a POST stage exactly when that assessment is completed |
| Store.Database.ParticipantsForCohort | database.py:297-323 | the cohort's participants, each exactly once, in increasing id order |
| Store.Database.CollectParticipantData | database.py:529-540 | one record per member, in order, with counters equal to the completed PRE and POST stages |
| Store.Database.GetCohortData | database.py:517-542 | none exactly for an unknown cohort; otherwise the cohort, every member's data in order, `total` equal to the member count, and the two completion counters |
| Reports.BuildTable | report_generator.py:315-366 | the table built row by row through `Table` is the styled table of the row specifications |
| Reports.OverallRow | report_generator.py:763-772 | the OVERALL row: light-grey cells holding the values, the first one left-aligned and the others centred |
| Reports.Hexless | report_generator.py:553 | `colour_hex.replace('#', '')` holds no `#`, is shorter than the input by its number of `#`s, and is the input itself when it holds none |
| Reports.HexlessIndicatorColour | report_generator.py:549-553 | the header colour of an indicator table is the indicator's brand colour without its leading `#` |
| Reports.IndicatorItemsAreItems | report_generator.py:528-556 | every item of an indicator is a framework item |
| Reports.Response | report_generator.py:618 | the stored answer, or "No response provided" when the question is missing |
| Reports.OriginalConcern | report_generator.py:855-857 | the PRE answer to question 3 exactly when it is present and non-empty |
| Reports.BaselineInput | report_generator.py:404-475 | ValueError exactly without data or PRE stage; TypeError exactly without a cohort or with a NULL role; IndexError exactly for a blank name; otherwise the data |
| Reports.ScoreRows | report_generator.py:507-509 | one summary row per indicator, in table order |
| Reports.BaselineItemSpecs | report_generator.py:556-573 | one item row per item, in order |
| Reports.BuildBaselineSummary | report_generator.py:505-522 | builds exactly the baseline summary table |
| Reports.BuildBaselineItems | report_generator.py:556-573 | builds exactly the item table of the given items |
| Reports.BuildBaselineIndicatorTables | report_generator.py:528-575 | builds exactly the four indicator item tables |
| Reports.BuildBaselineIndicatorTable | report_generator.py:528-573 | builds exactly one indicator's item table, headed in the indicator's colour |
| Reports.BuildBaselineOverallTable | report_generator.py:583-601 | builds exactly the Overall Readiness table of items 31–32 |
| Reports.GenerateBaselineReport | report_generator.py:400-640 | returns exactly the Baseline document or the input error |
| Reports.BaselineOf | report_generator.py:400-640 | the Baseline document renders exactly when the input check passes, and otherwise carries that check's error; `ReportFacts.BaselineRenders` states its parts |
| Reports.ProgressInput | report_generator.py:644-725 | ValueError exactly without data, PRE or POST; TypeError exactly for a NULL role; IndexError exactly for a blank name; the cohort is not consulted |
| Reports.ProgressRows | report_generator.py:748-758 | one summary row per indicator, in table order |
| Reports.ProgressItemSpecs | report_generator.py:816-836 | one comparison row per item, in order |
| Reports.BuildProgressSummary | report_generator.py:746-772 | builds exactly the progress summary table |
| Reports.BuildProgressItems | report_generator.py:816-836 | builds exactly the comparison table of the given items |
| Reports.BuildProgressIndicatorTables | report_generator.py:785-838 | builds exactly the four comparison tables |
| Reports.BuildProgressIndicatorTable | report_generator.py:785-836 | builds exactly one indicator's comparison table |
| Reports.GenerateProgressReport | report_generator.py:642-884 | returns exactly the Progress document or the input error |
| Reports.ProgressOf | report_generator.py:642-884 | the Progress document renders exactly when the input check passes, and otherwise carries that check's error; `ReportFacts.ProgressRenders` states its parts |
| Reports.Complete | report_generator.py:899 | exactly the participants with both a PRE and a POST stage |
| Reports.ImpactInput | report_generator.py:893-966 | ValueError "Cohort not found" exactly without data; ValueError for fewer than two complete participants; TypeError exactly for a NULL programme; otherwise the data |
| Reports.PostAnswers | report_generator.py:928-929 | only truthy POST answers to the question, each one a participant's stored answer, and every participant's truthy answer is included |
| Reports.PostAnswersAppend | report_generator.py:928-929 | the comprehension keeps participant order: the answers of a concatenation are those of each part, in turn |
| Reports.AsResponses | report_generator.py:931-932 | the answers passed on unchanged, as responses |
| Reports.ThemeLines | report_generator.py:1093-1099 | the manual-review line exactly when there are no themes; exactly when the themes are not an array of objects, TypeError for a non-iterable value and AttributeError otherwise; else one bulleted formatted line per theme |
| Reports.Increase | report_generator.py:984-998 | the headline increase is post overall minus pre overall, always written with `+` |
| Reports.ResultRows | report_generator.py:1041-1047 | one results row per indicator, in table order |
| Reports.FocusRows | report_generator.py:1070-1079 | one focus row per focus, in table order |
| Reports.BuildResultsTable | report_generator.py:1039-1047 | builds exactly the indicator results table |
| Reports.BuildFocusTable | report_generator.py:1061-1079 | builds exactly the focus-area table |
| Reports.ThemeParagraphs | report_generator.py:1093-1112 | produces exactly the theme lines |
| Reports.GenerateImpactReport | report_generator.py:888-1111 | returns exactly the Impact document, the input error, or the error of formatting themes that are not an array of objects |
| Reports.ImpactOf | report_generator.py:888-1111 | defined as the input check's error, or the document built from the extracted themes; `ReportFacts.ImpactRenders`, `ImpactHeadline` and `ImpactTables` state when it renders and what it holds |
| ReportFacts.StyledTableStriped | report_generator.py:341 | data row `k` of a styled table is white for even `k` and cream for odd `k`, so adjacent rows differ |
| ReportFacts.IndicatorScoreIsMean | report_generator.py:368-377 | an individual indicator score is the mean of its rated items |
| ReportFacts.CohortScoreIsMean | report_generator.py:668-670 | a cohort indicator score is the zero-substituting mean of its items |
| ReportFacts.CohortFocusScoreIsMean | report_generator.py:920-925 | a cohort focus score is the zero-substituting mean of its items |
| ReportFacts.BaselineItemRow | report_generator.py:556-573 | item row `j` shows the number, text, focus, the score bar as the only picture, and the score as a numeral that reads back as the score (0 when unrated) |
| ReportFacts.BaselineIndicatorTableRow | report_generator.py:528-573 | indicator table `k` has its header in the indicator's colour without its `#` and one row per item, showing the item number and the bar of its score in that colour |
| ReportFacts.BaselineSummaryRow | report_generator.py:505-522 | summary row `k` shows the indicator name and the mean of its rated items; the last row is OVERALL with the overall score |
| ReportFacts.ScoreRowCells | report_generator.py:507-509 | a summary row shows the indicator and its score, or 0 |
| ReportFacts.BaselineRenders | report_generator.py:400-640 | the Baseline renders exactly with a PRE stage, a cohort, a non-NULL role and a non-blank name, and otherwise fails with the input error; on success the radar, item tables, overall table and reflections come from the PRE ratings and answers |
| ReportFacts.PreReflectionsAnswers | report_generator.py:612-624 | three reflections, each with its PRE question and the stored answer or the "No response provided" text |
| ReportFacts.ProgressItemRow | report_generator.py:816-836 | item row `j` shows the PRE score, the POST score, the comparison bar and the change string of POST minus PRE |
| ReportFacts.ProgressIndicatorTableRow | report_generator.py:785-836 | comparison table `k` has its header in the indicator's colour without its `#` and one row per item with its comparison bar |
| ReportFacts.ProgressSummaryRow | report_generator.py:748-758 | summary row `k` shows the PRE and POST rated-item means, their difference with `+` exactly when it is positive, and the zero-substituting cohort mean |
| ReportFacts.ProgressRowCells | report_generator.py:748-758 | a summary row's five cells, in terms of the score maps |
| ReportFacts.ProgressOverallCells | report_generator.py:761-772 | the OVERALL row shows both overall scores, their change with the sign rule, and the cohort overall over all 32 items |
| ReportFacts.ProgressRenders | report_generator.py:642-742 | the Progress renders exactly with PRE, POST, a non-NULL role and a non-blank name, and otherwise fails with the input error; its radar compares the PRE and POST indicator scores |
| ReportFacts.PostReflectionsAnswers | report_generator.py:849-870 | three reflections with the POST questions and answers; only question 3 carries the original concern, exactly when that concern is non-empty |
| ReportFacts.CompleteWithinCounters | database.py:534-540 | the participants with both stages are no more than either completion counter |
| ReportFacts.ImpactRenders | report_generator.py:888-1111 | the Impact renders exactly when the cohort exists with at least two complete participants and a programme, and both theme records hold no themes or an array of objects (else the formatting error of the first record that does not); its theme paragraphs are the formatted themes, and both completion counters are then at least 2 |
| ReportFacts.ImpactHeadline | report_generator.py:984-998 | the headline increase and the ROI pair (item 32's PRE and POST averages) |
| ReportFacts.ImpactTables | report_generator.py:905-925 | the results and focus tables are built from the cohort's zero-substituting scores |
| ReportFacts.ImpactResultsRow | report_generator.py:1041-1047 | results row `k` shows the PRE and POST cohort means and their change with `+` exactly when it is positive |
| ReportFacts.ImpactFocusRow | report_generator.py:1070-1079 | focus row `k` shows the focus, its description, PRE, POST and the signed change |

## Left out

- Rendering is not modelled: matplotlib figures, python-docx styling, fonts, angles, labels,
  legends, margins, the logo, headings, the information tables' layout and fixed prose (the
  TypeError a NULL cell value raises there is modelled). The charts are
  their layer lists; a picture cell holds the chart drawn into its temporary file.
- The per-indicator description line of each report (the "Dimension Average" line and the
  "Pre → Post (change)" line) is prose and is not modelled.
- Number formatting (`:.1f`) is not modelled: a cell holds the number and its sign prefix.
- Reports.Increase: written with `+` whatever the sign of the change, as the code does; the
  model does not claim the fixed "measurable improvement" sentence (report_generator.py:987).
- The completion rate of the Impact report is not modelled, because of its float truncation
  through `int(...)`. Nor are the fixed "100%" and "79%" metrics, the ROI prose or the
  recommendations.
- `get_cohort_averages` (SQL `AVG` grouped by item) is a parameter of the reports: a map from
  item to average.
- The Baseline OVERALL row centres the cell that equals `overall_row.cells[1]`. The model
  assumes that python-docx cell proxies compare equal exactly when they wrap the same cell, so
  the first cell is left-aligned and the second centred.
- Random access tokens (`secrets.token_urlsafe`) and `datetime.now()` are parameters.
- Store.Database.GetAssessmentsForParticipant: the unordered `SELECT` of a participant's
  assessments is assumed to return rows in rowid (id) order, which SQLite does in practice but
  does not promise; "the later row wins" is therefore stated as "the highest id wins".
- Themes.FormatThemesForReport: a theme whose `theme` is not a string (JSON `null`, a number,
  a boolean, an array or an object) and that gets no mention suffix is that raw value in the
  returned list; the model returns its `str()` ("None", "5", "True", ...), which is what the
  report's `f"• {theme}"` writes for it. The `str()` of such a value is carried in the theme
  (`OtherTheme`) rather than computed, since Python's `repr` of arrays and objects is not modelled. A `count` that is not an integer is not
  modelled.
- Store.Database.ParticipantsForCohort: `get_participants_for_cohort` orders by name; the model
  orders by id, since string collation is not modelled. The PRE/POST status columns it adds are not modelled.
- SQLite does not enforce foreign keys by default, so the model does not either.
- The `created_at` default timestamps are not modelled.
- The language-model call and `json.loads` are function parameters (`call`, `parse`). Network
  errors are a `Raised` reply.
- The simple getters are not modelled separately: `get_cohort`, `get_all_cohorts`,
  `get_participant`, `get_participant_by_token`, `get_assessment`, `get_assessment_by_token`,
  `is_assessment_completed`, `get_all_open_responses_for_cohort` and `get_db_info`. The
  reporting queries that use them read the maps directly.
- Connection handling (`get_connection`, `_execute`, `_fetchall`, `_fetchone`) is not
  modelled, nor is the Turso (libsql) connection branch.
- app.py, assessment_form.py, email_sender.py and load_test_data.py are not part of this model.
