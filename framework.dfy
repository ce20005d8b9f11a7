/**
 * The readiness framework's reference data (rating scale, four indicators over items 1-30,
 * the two Overall items 31-32, 32 items with statement, focus tag and indicator) and its lookups.
 */
module Framework {
  import opened Wrappers

  /** The six-point agreement scale a rating is taken on. */
  const RATING_SCALE: map<int, string> :=
    map[1 := "Strongly Disagree", 2 := "Disagree", 3 := "Slightly Disagree",
        4 := "Slightly Agree", 5 := "Agree", 6 := "Strongly Agree"]

  /** The open questions of the PRE form; question `q` is entry `q - 1`. */
  const OPEN_QUESTIONS_PRE: seq<string> := [
    "What aspect of your new role are you most looking forward to?",
    "What is the one area where you would most like to build your confidence or skills?",
    "What concerns, if any, do you have about the launch period ahead?"]

  /** The open questions of the POST form; question `q` is entry `q - 1`. */
  const OPEN_QUESTIONS_POST: seq<string> := [
    "What was your most valuable takeaway from the programme?",
    "What will you do differently as a result of attending?",
    "Looking back at your pre-programme concerns, how do you feel now?"]

  datatype Indicator = SelfReadiness | PracticalReadiness | ProfessionalReadiness | TeamReadiness

  datatype Focus = Knowledge | Awareness | Confidence | Behaviour

  /** What an item belongs to: one of the four indicators, or the Overall pair. */
  datatype Group = Of(indicator: Indicator) | Overall

  function IndicatorName(i: Indicator): string
  {
    match i
    case SelfReadiness => "Self-Readiness"
    case PracticalReadiness => "Practical Readiness"
    case ProfessionalReadiness => "Professional Readiness"
    case TeamReadiness => "Team Readiness"
  }

  function GroupName(g: Group): string
  {
    match g
    case Of(i) => IndicatorName(i)
    case Overall => "Overall"
  }

  function FocusName(f: Focus): string
  {
    match f
    case Knowledge => "Knowledge"
    case Awareness => "Awareness"
    case Confidence => "Confidence"
    case Behaviour => "Behaviour"
  }

  /** The brand colour of an indicator (hex, as the charts use it). */
  function IndicatorColour(i: Indicator): string
  {
    match i
    case SelfReadiness => "#461E96"
    case PracticalReadiness => "#00B4E6"
    case ProfessionalReadiness => "#E6008C"
    case TeamReadiness => "#00DC8C"
  }

  /** One entry of the indicator table: the name and its inclusive item range. */
  datatype IndicatorRange = IndicatorRange(indicator: Indicator, start: int, end: int)

  /** The indicator table, in the order the reports iterate over it. */
  const INDICATORS: seq<IndicatorRange> := [
    IndicatorRange(SelfReadiness, 1, 6),
    IndicatorRange(PracticalReadiness, 7, 14),
    IndicatorRange(ProfessionalReadiness, 15, 22),
    IndicatorRange(TeamReadiness, 23, 30)
  ]

  const OVERALL_FIRST := 31
  const OVERALL_LAST := 32

  /** The focus tags, in the order of the tag table. */
  const FOCUS_TAGS: seq<Focus> := [Knowledge, Awareness, Confidence, Behaviour]

  /** The indicator table's entry for `i` (the dictionary lookup `INDICATORS[i]`). */
  function RangeOf(i: Indicator): (r: IndicatorRange)
    ensures r in INDICATORS && r.indicator == i
  {
    match i
    case SelfReadiness => INDICATORS[0]
    case PracticalReadiness => INDICATORS[1]
    case ProfessionalReadiness => INDICATORS[2]
    case TeamReadiness => INDICATORS[3]
  }

  predicate InRange(r: IndicatorRange, n: int)
  {
    r.start <= n <= r.end
  }

  /** Some indicator's range holds item `n`. */
  predicate Covered(n: int)
  {
    exists k :: 0 <= k < |INDICATORS| && InRange(INDICATORS[k], n)
  }

  /** The four ranges are contiguous and in order, and together cover exactly items 1-30. */
  lemma IndicatorRangesPartition()
    ensures |INDICATORS| == 4 && INDICATORS[0].start == 1 && INDICATORS[3].end == 30
    ensures forall k :: 0 <= k < 4 ==> INDICATORS[k].start <= INDICATORS[k].end
    ensures forall k :: 0 <= k < 3 ==> INDICATORS[k + 1].start == INDICATORS[k].end + 1
    ensures forall j, k :: 0 <= j < k < 4 ==> INDICATORS[j].indicator != INDICATORS[k].indicator
    ensures forall n :: Covered(n) <==> 1 <= n <= 30
    ensures forall n, j, k :: 0 <= j < 4 && 0 <= k < 4 && InRange(INDICATORS[j], n) && InRange(INDICATORS[k], n) ==> j == k
  {
    forall n | 1 <= n <= 30 ensures Covered(n) {
      var k := if n <= 6 then 0 else if n <= 14 then 1 else if n <= 22 then 2 else 3;
      assert InRange(INDICATORS[k], n);
    }
  }

  /** An item of the survey: its statement, its focus tag and its group. */
  datatype Item = Item(text: string, focus: Focus, group: Group)

  /** The focus tag and group of one item. */
  datatype Tags = Tags(focus: Focus, group: Group)

  /** The tags of the items; ITEM_TAGS[n - 1] belongs to item n. */
  const ITEM_TAGS: seq<Tags> := [
    /*  1 */ Tags(Knowledge, Of(SelfReadiness)),
    /*  2 */ Tags(Knowledge, Of(SelfReadiness)),
    /*  3 */ Tags(Awareness, Of(SelfReadiness)),
    /*  4 */ Tags(Confidence, Of(SelfReadiness)),
    /*  5 */ Tags(Behaviour, Of(SelfReadiness)),
    /*  6 */ Tags(Behaviour, Of(SelfReadiness)),
    /*  7 */ Tags(Behaviour, Of(PracticalReadiness)),
    /*  8 */ Tags(Behaviour, Of(PracticalReadiness)),
    /*  9 */ Tags(Behaviour, Of(PracticalReadiness)),
    /* 10 */ Tags(Knowledge, Of(PracticalReadiness)),
    /* 11 */ Tags(Behaviour, Of(PracticalReadiness)),
    /* 12 */ Tags(Behaviour, Of(PracticalReadiness)),
    /* 13 */ Tags(Behaviour, Of(PracticalReadiness)),
    /* 14 */ Tags(Confidence, Of(PracticalReadiness)),
    /* 15 */ Tags(Behaviour, Of(ProfessionalReadiness)),
    /* 16 */ Tags(Behaviour, Of(ProfessionalReadiness)),
    /* 17 */ Tags(Knowledge, Of(ProfessionalReadiness)),
    /* 18 */ Tags(Behaviour, Of(ProfessionalReadiness)),
    /* 19 */ Tags(Behaviour, Of(ProfessionalReadiness)),
    /* 20 */ Tags(Behaviour, Of(ProfessionalReadiness)),
    /* 21 */ Tags(Behaviour, Of(ProfessionalReadiness)),
    /* 22 */ Tags(Behaviour, Of(ProfessionalReadiness)),
    /* 23 */ Tags(Knowledge, Of(TeamReadiness)),
    /* 24 */ Tags(Confidence, Of(TeamReadiness)),
    /* 25 */ Tags(Behaviour, Of(TeamReadiness)),
    /* 26 */ Tags(Behaviour, Of(TeamReadiness)),
    /* 27 */ Tags(Behaviour, Of(TeamReadiness)),
    /* 28 */ Tags(Behaviour, Of(TeamReadiness)),
    /* 29 */ Tags(Awareness, Of(TeamReadiness)),
    /* 30 */ Tags(Behaviour, Of(TeamReadiness)),
    /* 31 */ Tags(Confidence, Overall),
    /* 32 */ Tags(Confidence, Overall)
  ]

  /** The number of items; they are numbered 1 to ITEM_COUNT. */
  const ITEM_COUNT := |ITEM_TAGS|

  /** The statement of item `n`. */
  function ItemText(n: int): string
    requires 1 <= n <= ITEM_COUNT
  {
    match n
    case 1 => "I can clearly articulate my personal values and how they influence my decisions"
    case 2 => "I understand my preferred working style and how it differs from others"
    case 3 => "I recognise how my behaviour changes when I am under pressure"
    case 4 => "I project credibility and presence when communicating with others"
    case 5 => "I adapt my approach effectively when working with people who have different styles to me"
    case 6 => "I actively seek feedback on my own performance and act on it"
    case 7 => "I prioritise my time effectively, focusing on high-value activities"
    case 8 => "I protect time for important but non-urgent work rather than constantly firefighting"
    case 9 => "I delegate tasks appropriately rather than taking on too much myself"
    case 10 => "I understand how to match my delegation approach to the individual and the task"
    case 11 => "I listen to fully understand before forming my response"
    case 12 => "I address difficult issues directly rather than avoiding or delaying them"
    case 13 => "I give feedback that is specific, constructive and focused on improvement"
    case 14 => "I am comfortable receiving feedback, even when it is challenging to hear"
    case 15 => "I communicate with clarity, adapting my message for different audiences"
    case 16 => "I build trust quickly through consistency between my words and actions"
    case 17 => "I understand what creates and what erodes trust in working relationships"
    case 18 => "I run meetings that are focused, productive and worth people's time"
    case 19 => "I conduct effective check-ins that go beyond just task updates"
    case 20 => "I set clear goals so people understand what success looks like"
    case 21 => "I take ownership of outcomes rather than attributing problems to external factors"
    case 22 => "I hold myself and others accountable for commitments made"
    case 23 => "I understand the key HR processes and policies relevant to my role"
    case 24 => "I feel equipped to handle common people management situations"
    case 25 => "I model and actively promote safety-first behaviours"
    case 26 => "I speak up about safety concerns, even when it might be uncomfortable"
    case 27 => "I help my team understand and navigate change rather than just announcing it"
    case 28 => "I maintain my own effectiveness during periods of pressure and uncertainty"
    case 29 => "I recognise signs of stress in myself and take action before it escalates"
    case 30 => "I support the wellbeing of my team, particularly during demanding periods"
    case 31 => "Overall, I feel ready to perform effectively in my role"
    case _ => "I am confident I can build a high-performing team from day one"  // 32
  }

  /** The item table, keyed by item number. */
  function ItemAt(n: int): Item
    requires 1 <= n <= ITEM_COUNT
  {
    Item(ItemText(n), ITEM_TAGS[n - 1].focus, ITEM_TAGS[n - 1].group)
  }

  /** `list(range(lo, hi + 1))`: the ascending integers from `lo` to `hi`. */
  function IntRange(lo: int, hi: int): (r: seq<int>)
    ensures |r| == if lo <= hi then hi - lo + 1 else 0
    ensures forall k :: 0 <= k < |r| ==> r[k] == lo + k
    ensures forall x :: x in r <==> lo <= x <= hi
  {
    if lo > hi then []
    else
      var r := seq(hi - lo + 1, k requires 0 <= k < hi - lo + 1 => lo + k);
      RangeMembers(lo, hi, r);
      r
  }

  /** Every integer from `lo` to `hi` occurs in the ascending run from `lo`. */
  lemma RangeMembers(lo: int, hi: int, r: seq<int>)
    requires |r| == hi - lo + 1 && forall k :: 0 <= k < |r| ==> r[k] == lo + k
    ensures forall x :: x in r <==> lo <= x <= hi
  {
    forall x | lo <= x <= hi
      ensures x in r
    {
      assert r[x - lo] == x;
    }
  }

  // ---------------------------------------------------------------- item -> indicator

  /** The first table entry whose range holds `n`, scanning in table order. */
  function FirstRangeContaining(ranges: seq<IndicatorRange>, n: int): (r: Option<Indicator>)
    ensures r.Some? ==> exists k :: 0 <= k < |ranges| && ranges[k].indicator == r.value && InRange(ranges[k], n)
    ensures r.None? ==> forall k :: 0 <= k < |ranges| ==> !InRange(ranges[k], n)
  {
    if ranges == [] then None
    else if InRange(ranges[0], n) then Some(ranges[0].indicator)
    else
      var r := FirstRangeContaining(ranges[1..], n);
      assert forall k :: 1 <= k < |ranges| ==> ranges[k] == ranges[1..][k - 1];
      r
  }

  /**
   * The value `get_indicator_for_item(n)` returns: the indicator whose range holds `n`,
   * else Overall for 31-32, else nothing.
   */
  function GroupOf(n: int): Option<Group>
  {
    match FirstRangeContaining(INDICATORS, n)
    case Some(i) => Some(Of(i))
    case None => if OVERALL_FIRST <= n <= OVERALL_LAST then Some(Overall) else None
  }

  /** The inclusive bounds of a group's items. */
  function FirstItem(g: Group): int
  {
    match g
    case Of(i) => RangeOf(i).start
    case Overall => OVERALL_FIRST
  }

  function LastItem(g: Group): int
  {
    match g
    case Of(i) => RangeOf(i).end
    case Overall => OVERALL_LAST
  }

  /** GroupOf names the unique group whose range holds `n`, and nothing outside 1-32. */
  lemma GroupOfCharacterized(n: int)
    ensures forall g :: GroupOf(n) == Some(g) <==> FirstItem(g) <= n <= LastItem(g)
    ensures GroupOf(n).None? <==> n < 1 || n > 32
  {
    IndicatorRangesPartition();
    var f := FirstRangeContaining(INDICATORS, n);
    assert Covered(n) <==> 1 <= n <= 30;
    if f.Some? {
      var k :| 0 <= k < 4 && INDICATORS[k].indicator == f.value && InRange(INDICATORS[k], n);
      assert RangeOf(f.value) == INDICATORS[k];
    }
  }

  /** `get_indicator_for_item`: a scan of the indicator table with an early return. */
  method GetIndicatorForItem(n: int) returns (g: Option<Group>)
    ensures g == GroupOf(n)
    ensures forall h :: g == Some(h) <==> FirstItem(h) <= n <= LastItem(h)
    ensures g.None? <==> n < 1 || n > 32
  {
    GroupOfCharacterized(n);
    var k := 0;
    while k < |INDICATORS|
      invariant 0 <= k <= |INDICATORS|
      invariant FirstRangeContaining(INDICATORS[k..], n) == FirstRangeContaining(INDICATORS, n)
    {
      if INDICATORS[k].start <= n <= INDICATORS[k].end {
        return Some(Of(INDICATORS[k].indicator));
      }
      assert INDICATORS[k..][1..] == INDICATORS[k + 1..];
      k := k + 1;
    }
    if OVERALL_FIRST <= n <= OVERALL_LAST {
      return Some(Overall);
    }
    return None;
  }

  /** Every item's stored indicator agrees with the range lookup. */
  lemma ItemTableAgreesWithRanges()
    ensures forall n :: 1 <= n <= ITEM_COUNT ==> GroupOf(n) == Some(ITEM_TAGS[n - 1].group)
  {
    forall n | 1 <= n <= ITEM_COUNT ensures GroupOf(n) == Some(ITEM_TAGS[n - 1].group) {
      GroupOfCharacterized(n);
    }
  }

  // ---------------------------------------------------------------- indicator -> items

  /** The group an indicator name denotes, if any (`'Overall'`, then the table's names). */
  function GroupNamed(name: string): Option<Group>
  {
    if name == "Overall" then Some(Overall)
    else if name == IndicatorName(SelfReadiness) then Some(Of(SelfReadiness))
    else if name == IndicatorName(PracticalReadiness) then Some(Of(PracticalReadiness))
    else if name == IndicatorName(ProfessionalReadiness) then Some(Of(ProfessionalReadiness))
    else if name == IndicatorName(TeamReadiness) then Some(Of(TeamReadiness))
    else None
  }

  /** Names and groups correspond one to one. */
  lemma GroupNamesRoundTrip(g: Group, name: string)
    ensures GroupNamed(GroupName(g)) == Some(g)
    ensures GroupNamed(name) == Some(g) ==> GroupName(g) == name
  {
  }

  function ItemsOf(g: Group): seq<int>
  {
    IntRange(FirstItem(g), LastItem(g))
  }

  /** `get_items_for_indicator`: the ascending range for a known name, `[]` for any other name. */
  function GetItemsForIndicator(name: string): (r: seq<int>)
    ensures GroupNamed(name).None? ==> r == []
    ensures forall g :: GroupNamed(name) == Some(g) ==>
      |r| == LastItem(g) - FirstItem(g) + 1 && forall k :: 0 <= k < |r| ==> r[k] == FirstItem(g) + k
  {
    match GroupNamed(name)
    case None => []
    case Some(g) => ItemsOf(g)
  }

  /** Round trip: the items listed for a group are exactly the items whose lookup gives that group. */
  lemma ItemsForIndicatorRoundTrip(g: Group, n: int)
    ensures n in GetItemsForIndicator(GroupName(g)) <==> GroupOf(n) == Some(g)
  {
    GroupNamesRoundTrip(g, GroupName(g));
    GroupOfCharacterized(n);
  }

  // ---------------------------------------------------------------- focus tags

  /** Strictly ascending. */
  predicate Increasing(s: seq<int>)
  {
    forall a, b :: 0 <= a < b < |s| ==> s[a] < s[b]
  }

  /** The numbers of the entries of `table` tagged `f`, the first entry being number `first`. */
  function NumbersTagged(table: seq<Tags>, f: Focus, first: int): (r: seq<int>)
    ensures |r| <= |table|
    ensures forall a :: 0 <= a < |r| ==> first <= r[a] < first + |table|
  {
    if table == [] then []
    else (if table[0].focus == f then [first] else []) + NumbersTagged(table[1..], f, first + 1)
  }

  lemma {:induction false} NumbersTaggedIncreasing(table: seq<Tags>, f: Focus, first: int)
    ensures Increasing(NumbersTagged(table, f, first))
  {
    if table != [] {
      NumbersTaggedIncreasing(table[1..], f, first + 1);
    }
  }

  /** Every listed number is that of an entry tagged `f`. */
  lemma {:induction false} NumbersTaggedSound(table: seq<Tags>, f: Focus, first: int, n: int)
    requires n in NumbersTagged(table, f, first)
    ensures first <= n < first + |table| && table[n - first].focus == f
  {
    var tail := table[1..];
    var head := if table[0].focus == f then [first] else [];
    assert NumbersTagged(table, f, first) == head + NumbersTagged(tail, f, first + 1);
    if n !in head {
      NumbersTaggedSound(tail, f, first + 1, n);
      assert table[n - first] == tail[n - (first + 1)];
    }
  }

  /** Every entry tagged `f` is listed. */
  lemma {:induction false} NumbersTaggedComplete(table: seq<Tags>, f: Focus, first: int, k: int)
    requires 0 <= k < |table| && table[k].focus == f
    ensures first + k in NumbersTagged(table, f, first)
  {
    var tail := table[1..];
    var head := if table[0].focus == f then [first] else [];
    assert NumbersTagged(table, f, first) == head + NumbersTagged(tail, f, first + 1);
    if k > 0 {
      assert tail[k - 1] == table[k];
      NumbersTaggedComplete(tail, f, first + 1, k - 1);
    }
  }

  /** The listed numbers are exactly those of the entries tagged `f`. */
  lemma NumbersTaggedMembers(table: seq<Tags>, f: Focus, first: int, n: int)
    ensures n in NumbersTagged(table, f, first) <==> first <= n < first + |table| && table[n - first].focus == f
  {
    if n in NumbersTagged(table, f, first) {
      NumbersTaggedSound(table, f, first, n);
    }
    if first <= n < first + |table| && table[n - first].focus == f {
      NumbersTaggedComplete(table, f, first, n - first);
    }
  }

  lemma {:induction false} NumbersTaggedAppend(table: seq<Tags>, x: Tags, f: Focus, first: int)
    ensures NumbersTagged(table + [x], f, first)
         == NumbersTagged(table, f, first) + (if x.focus == f then [first + |table|] else [])
  {
    var sx := table + [x];
    if table != [] {
      var tail := table[1..];
      assert sx[0] == table[0];
      assert sx[1..] == tail + [x];
      NumbersTaggedAppend(tail, x, f, first + 1);
    } else {
      assert sx[1..] == [];
    }
  }

  lemma {:induction false} TaggedCountsSum(table: seq<Tags>, first: int)
    ensures |NumbersTagged(table, Knowledge, first)| + |NumbersTagged(table, Awareness, first)|
          + |NumbersTagged(table, Confidence, first)| + |NumbersTagged(table, Behaviour, first)| == |table|
  {
    if table != [] {
      TaggedCountsSum(table[1..], first + 1);
    }
  }

  /** `get_items_by_focus`: the numbers of the items tagged `f`, ascending. */
  function GetItemsByFocus(f: Focus): (r: seq<int>)
    ensures Increasing(r)
    ensures forall k :: 0 <= k < |r| ==> 1 <= r[k] <= ITEM_COUNT
  {
    NumbersTaggedIncreasing(ITEM_TAGS, f, 1);
    NumbersTagged(ITEM_TAGS, f, 1)
  }

  /** Item `n` is listed for `f` exactly when it is tagged `f`. */
  lemma ItemsByFocusMembers(f: Focus, n: int)
    ensures n in GetItemsByFocus(f) <==> 1 <= n <= ITEM_COUNT && ITEM_TAGS[n - 1].focus == f
  {
    NumbersTaggedMembers(ITEM_TAGS, f, 1, n);
  }

  /** Every item carries exactly one of the four tags, so the four lists partition 1-32. */
  lemma FocusListsPartition(n: int)
    requires 1 <= n <= ITEM_COUNT
    ensures exists f :: n in GetItemsByFocus(f)
    ensures forall f, h :: n in GetItemsByFocus(f) && n in GetItemsByFocus(h) ==> f == h
  {
    ItemsByFocusMembers(ITEM_TAGS[n - 1].focus, n);
    forall f | n in GetItemsByFocus(f) ensures f == ITEM_TAGS[n - 1].focus {
      ItemsByFocusMembers(f, n);
    }
  }

  /** Every focus tag has at least one item. */
  lemma FocusItemsNonEmpty(f: Focus)
    ensures GetItemsByFocus(f) != []
  {
    var n := if f == Knowledge then 1 else if f == Awareness then 3 else if f == Confidence then 4 else 5;
    assert ITEM_TAGS[n - 1].focus == f;
    ItemsByFocusMembers(f, n);
  }

  /**
   * `get_focus_summary`: counts the items per tag in one pass over the table; each count is the
   * length of that tag's item list, and the counts add up to the number of items.
   */
  method GetFocusSummary() returns (summary: map<Focus, int>)
    ensures summary.Keys == {Knowledge, Awareness, Confidence, Behaviour}
    ensures forall f :: f in summary ==> summary[f] == |GetItemsByFocus(f)|
    ensures summary[Knowledge] + summary[Awareness] + summary[Confidence] + summary[Behaviour] == ITEM_COUNT
  {
    summary := CountFocusTags(ITEM_TAGS);
  }

  /** The counting pass of `get_focus_summary`, over any tag table. */
  method CountFocusTags(table: seq<Tags>) returns (summary: map<Focus, int>)
    ensures summary.Keys == {Knowledge, Awareness, Confidence, Behaviour}
    ensures forall f :: f in summary ==> summary[f] == |NumbersTagged(table, f, 1)|
    ensures summary[Knowledge] + summary[Awareness] + summary[Confidence] + summary[Behaviour] == |table|
  {
    summary := map[Knowledge := 0, Awareness := 0, Confidence := 0, Behaviour := 0];
    for k := 0 to |table|
      invariant summary.Keys == {Knowledge, Awareness, Confidence, Behaviour}
      invariant forall f :: f in summary ==> summary[f] == |NumbersTagged(table[..k], f, 1)|
    {
      var x := table[k];
      ghost var done := table[..k];
      assert table[..k + 1] == done + [x];
      forall f | f in summary
        ensures |NumbersTagged(done + [x], f, 1)| == |NumbersTagged(done, f, 1)| + (if x.focus == f then 1 else 0)
      {
        NumbersTaggedAppend(done, x, f, 1);
      }
      summary := summary[x.focus := summary[x.focus] + 1];
    }
    assert table[..|table|] == table;
    TaggedCountsSum(table, 1);
  }
}
