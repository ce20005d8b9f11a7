/**
 * Theme extraction for the impact report. The language-model service and the JSON parser
 * are inputs: `call` answers a prompt (or raises), `parse` reads a reply as a theme object,
 * another JSON value, or not JSON at all. What is modelled is the control flow around them:
 * which responses count, when the fallback record is returned, how a `{...}` block is cut out
 * of a chatty reply, and how themes become report bullets.
 */
module Themes {
  import opened Wrappers
  import opened Text

  /**
   * The `theme` key of a theme object: absent, JSON `null`, a string, or any other JSON value
   * (a number, boolean, array or object), which is carried as its Python `str()`: `5`, `True`,
   * `['a']`.
   */
  datatype ThemeText = NoTheme | NullTheme | ThemeString(s: string) | OtherTheme(text: string)

  /**
   * One element of the answer's `themes` list: an object, read through `t.get('theme')` and
   * `t.get('count')` (a missing or null count alike), or any other JSON value, which has no `get`.
   */
  datatype ThemeEntry = ThemeEntry(theme: ThemeText, count: Option<int>) | NotAnObject

  /**
   * The value under a record's `themes` key, in the forms the report's loop over it tells apart:
   * a JSON array of entries; a falsy value (null, 0, false, "" or {}), which counts as no themes;
   * a non-zero number or `true`, which `for` cannot iterate; or a non-empty string or object,
   * whose iteration yields strings, which have no `get`.
   */
  datatype ThemeList = Entries(entries: seq<ThemeEntry>) | Falsy | NotIterable | StringsOnly

  /** A theme record: its `themes`, `total_responses` and `note` keys, each possibly absent. */
  datatype ThemeData = ThemeData(themes: Option<ThemeList>, total: Option<int>, note: Option<string>)

  /** What `format_themes_for_report` raises: Python's TypeError and AttributeError. */
  datatype FormatError = TypeError | AttributeError

  /** What the service is asked. */
  datatype Prompt =
    | ThemePrompt(question: string, maxThemes: int, responses: seq<string>)
    | ConcernPrompt(concerns: seq<string>, reflections: seq<string>)

  /** The service's answer: the text of its first content block, or an exception. */
  datatype Reply = Raised | Replied(text: string)

  /** What `json.loads` makes of a text. */
  datatype Parsed = NotJson | JsonObject(data: ThemeData) | JsonOther

  const FALLBACK_NOTE := "AI theme extraction unavailable - manual review recommended"

  /** `{'themes': [], 'total_responses': 0}`. */
  const NO_THEMES: ThemeData := ThemeData(Some(Entries([])), Some(0), None)

  /** `r and r.strip()`: a response that is present and not whitespace only. */
  predicate Answered(r: Option<string>)
  {
    r.Some? && Strip(r.value) != ""
  }

  /** `[r for r in responses if r and r.strip()]`. */
  function ValidResponses(responses: seq<Option<string>>): (valid: seq<string>)
    ensures |valid| <= |responses|
    ensures forall k :: 0 <= k < |valid| ==> !IsBlank(valid[k])
  {
    if responses == [] then []
    else
      var rest := ValidResponses(responses[1..]);
      if Answered(responses[0]) then
        StripEmptyIffBlank(responses[0].value);
        [responses[0].value] + rest
      else rest
  }

  /** `_fallback_extraction`: no themes, the number of responses given, and the manual-review note. */
  function Fallback<T>(responses: seq<T>): (d: ThemeData)
    ensures d.themes == Some(Entries([])) && d.total == Some(|responses|) && d.note == Some(FALLBACK_NOTE)
  {
    ThemeData(Some(Entries([])), Some(|responses|), Some(FALLBACK_NOTE))
  }

  // ---------------------------------------------------------------- the `{...}` block of a reply

  /** The position of the first `c` in `s`. */
  function FirstIndex(s: string, c: char): (r: Option<nat>)
    ensures r.Some? ==> r.value < |s| && s[r.value] == c && forall k :: 0 <= k < r.value ==> s[k] != c
    ensures r.None? ==> forall k :: 0 <= k < |s| ==> s[k] != c
  {
    if s == [] then None
    else if s[0] == c then Some(0)
    else match FirstIndex(s[1..], c)
      case None => None
      case Some(k) => Some(k + 1)
  }

  /** The position of the last `c` in `s`. */
  function LastIndex(s: string, c: char): (r: Option<nat>)
    ensures r.Some? ==> r.value < |s| && s[r.value] == c && forall k :: r.value < k < |s| ==> s[k] != c
    ensures r.None? ==> forall k :: 0 <= k < |s| ==> s[k] != c
  {
    if s == [] then None
    else if s[|s| - 1] == c then Some(|s| - 1)
    else LastIndex(s[..|s| - 1], c)
  }

  /**
   * The span `re.search(r'\{.*\}', s, re.DOTALL)` matches, as `(start, end)`: from the first
   * `{` to the last `}`, when the first comes before the last.
   */
  function BraceSpan(s: string): Option<(nat, nat)>
  {
    match (FirstIndex(s, '{'), LastIndex(s, '}'))
    case (Some(i), Some(j)) => if i < j then Some((i, j + 1)) else None
    case _ => None
  }

  /** A `{` at `i` with a `}` later at `j`: a place the pattern can match. */
  predicate BracePair(s: string, i: int, j: int)
  {
    0 <= i < j < |s| && s[i] == '{' && s[j] == '}'
  }

  /**
   * The span is the regex's match: there is one exactly when some `{` has a later `}`; it starts
   * at the leftmost `{` that does and, `.*` being greedy, ends after the last `}`.
   */
  lemma BraceSpanIsLeftmostLongest(s: string)
    ensures BraceSpan(s).None? <==> forall i, j :: !BracePair(s, i, j)
    ensures BraceSpan(s).Some? ==>
      var (start, end) := BraceSpan(s).value;
      BracePair(s, start, end - 1) &&
      (forall i, j :: BracePair(s, i, j) ==> start <= i && j <= end - 1)
  {
    var first := FirstIndex(s, '{');
    var last := LastIndex(s, '}');
    forall i, j | BracePair(s, i, j)
      ensures first.Some? && last.Some? && first.value <= i < j <= last.value
    {
    }
    if BraceSpan(s).Some? {
      assert BracePair(s, first.value, last.value);
    }
  }

  /** The matched text, `json_match.group()`. */
  function BraceBlock(s: string): (r: Option<string>)
    ensures r.Some? ==> |r.value| >= 2 && r.value[0] == '{' && r.value[|r.value| - 1] == '}'
  {
    match BraceSpan(s)
    case None => None
    case Some((i, e)) =>
      BraceSpanIsLeftmostLongest(s);
      Some(s[i..e])
  }

  /**
   * The theme record a stripped reply yields, or None when the extractor falls back: a direct
   * parse, else a parse of the `{...}` block; a block that is not JSON, or JSON that is not an
   * object (whose `total_responses` cannot be set), both end in the fallback.
   */
  function ReadReply(text: string, parse: string -> Parsed): (r: Option<ThemeData>)
    ensures r.Some? <==>
      parse(text).JsonObject? ||
      (parse(text).NotJson? && BraceBlock(text).Some? && parse(BraceBlock(text).value).JsonObject?)
    ensures r.Some? ==>
      r.value == if parse(text).JsonObject? then parse(text).data else parse(BraceBlock(text).value).data
  {
    match parse(text)
    case JsonObject(d) => Some(d)
    case JsonOther => None
    case NotJson =>
      match BraceBlock(text)
      case None => None
      case Some(block) =>
        match parse(block)
        case JsonObject(d) => Some(d)
        case _ => None
  }

  /** The theme record a service call yields, or None when the extractor falls back. */
  function Answer(reply: Reply, parse: string -> Parsed): (r: Option<ThemeData>)
    ensures r.Some? <==> reply.Replied? && ReadReply(Strip(reply.text), parse).Some?
    ensures r.Some? ==> r == ReadReply(Strip(reply.text), parse)
  {
    match reply
    case Raised => None
    case Replied(t) => ReadReply(Strip(t), parse)
  }

  /** The record returned: a readable answer with `total` set, else the `fallback` record. */
  function Outcome(answer: Option<ThemeData>, total: int, fallback: ThemeData): ThemeData
  {
    match answer
    case Some(d) => d.(total := Some(total))
    case None => fallback
  }

  /** The first `n` elements of `s` (Python's `s[:n]`). */
  function Take<T>(s: seq<T>, n: nat): (r: seq<T>)
    ensures |r| == Min(|s|, n) && r == s[..|r|]
  {
    if |s| <= n then s else s[..n]
  }

  /** `[c for c in concerns if c]`: the present, non-empty concerns. */
  function Present(concerns: seq<Option<string>>): (r: seq<string>)
    ensures |r| <= |concerns|
    ensures forall k :: 0 <= k < |r| ==> r[k] != "" && Some(r[k]) in concerns
    ensures forall k :: 0 <= k < |concerns| && concerns[k].Some? && concerns[k].value != "" ==>
      concerns[k].value in r
  {
    if concerns == [] then []
    else
      var rest := Present(concerns[1..]);
      assert forall k :: 1 <= k < |concerns| ==> concerns[k] == concerns[1..][k - 1];
      if concerns[0].Some? && concerns[0].value != "" then [concerns[0].value] + rest else rest
  }

  /** The filter keeps order: the present concerns of a concatenation are those of each part, in turn. */
  lemma {:induction false} PresentAppend(a: seq<Option<string>>, b: seq<Option<string>>)
    ensures Present(a + b) == Present(a) + Present(b)
  {
    if a != [] {
      assert (a + b)[1..] == a[1..] + b;
      PresentAppend(a[1..], b);
    } else {
      assert a + b == b;
    }
  }

  class ThemeExtractor {
    var apiKey: Option<string>
    var client: bool

    /**
     * `__init__`: the key from the app's secrets if there is a non-empty one, else from the
     * environment; a client exists when the key is non-empty and the client library is installed.
     */
    constructor (secretKey: Option<string>, envKey: Option<string>, libraryInstalled: bool)
      ensures apiKey == (if secretKey.Some? && secretKey.value != "" then secretKey else envKey)
      ensures client <==> apiKey.Some? && apiKey.value != "" && libraryInstalled
    {
      var key := secretKey;
      if !(key.Some? && key.value != "") {
        key := envKey;
      }
      apiKey := key;
      client := key.Some? && key.value != "" && libraryInstalled;
    }

    /** `is_available`. */
    predicate IsAvailable()
      reads this
    {
      client
    }

    /**
     * `extract_themes`: without a client, the fallback over all responses; with one, no
     * answered response gives no themes and a total of 0; otherwise the service is asked about
     * the answered responses, a readable answer gets their count as its total, and any failure
     * gives the fallback over the answered responses. The total never exceeds the responses given.
     */
    function ExtractThemes(responses: seq<Option<string>>, question: string, maxThemes: int,
                           call: Prompt -> Reply, parse: string -> Parsed): (r: ThemeData)
      reads this
      ensures !client ==> r == Fallback(responses)
      ensures client && ValidResponses(responses) == [] ==> r == NO_THEMES
      ensures client && ValidResponses(responses) != [] ==>
        var valid := ValidResponses(responses);
        r == Outcome(Answer(call(ThemePrompt(question, maxThemes, valid)), parse), |valid|, Fallback(valid))
      ensures r.total.Some? && 0 <= r.total.value <= |responses|
    {
      if !client then Fallback(responses)
      else if responses == [] then NO_THEMES
      else
        var valid := ValidResponses(responses);
        if valid == [] then NO_THEMES
        else Outcome(Answer(call(ThemePrompt(question, maxThemes, valid)), parse), |valid|, Fallback(valid))
    }

    /** `extract_takeaways`: themes of the programme's most valuable takeaway, at most five. */
    function ExtractTakeaways(responses: seq<Option<string>>, call: Prompt -> Reply, parse: string -> Parsed): (r: ThemeData)
      reads this
      ensures r.total.Some? && 0 <= r.total.value <= |responses|
    {
      ExtractThemes(responses, "most valuable takeaway from the programme", 5, call, parse)
    }

    /** `extract_commitments`: themes of what participants will do differently, at most five. */
    function ExtractCommitments(responses: seq<Option<string>>, call: Prompt -> Reply, parse: string -> Parsed): (r: ThemeData)
      reads this
      ensures r.total.Some? && 0 <= r.total.value <= |responses|
    {
      ExtractThemes(responses, "what participants will do differently", 5, call, parse)
    }

    /**
     * `extract_concern_reflections`: a readable answer's total is the number of answered
     * reflections, and every fallback (unlike `extract_themes`') counts all reflections given,
     * answered or not.
     */
    function ExtractConcernReflections(preConcerns: seq<Option<string>>, postReflections: seq<Option<string>>,
                                       call: Prompt -> Reply, parse: string -> Parsed): (r: ThemeData)
      reads this
      ensures !client ==> r == Fallback(postReflections)
      ensures client && postReflections == [] ==> r == NO_THEMES
      ensures client && postReflections != [] ==>
        r == Outcome(Answer(call(ConcernPromptFor(preConcerns, postReflections)), parse),
                     |ValidResponses(postReflections)|, Fallback(postReflections))
      ensures r.total.Some? && 0 <= r.total.value <= |postReflections|
    {
      if !client then Fallback(postReflections)
      else if postReflections == [] then NO_THEMES
      else
        Outcome(Answer(call(ConcernPromptFor(preConcerns, postReflections)), parse),
                |ValidResponses(postReflections)|, Fallback(postReflections))
    }
  }

  /**
   * What `extract_concern_reflections` asks: the present concerns among the first ten given,
   * and the answered reflections.
   */
  function ConcernPromptFor(preConcerns: seq<Option<string>>, postReflections: seq<Option<string>>): (p: Prompt)
    ensures p.ConcernPrompt?
    ensures |p.concerns| <= 10
    ensures forall k :: 0 <= k < |p.concerns| ==> p.concerns[k] != "" && Some(p.concerns[k]) in preConcerns[..Min(|preConcerns|, 10)]
    ensures forall k :: 0 <= k < |p.reflections| ==> !IsBlank(p.reflections[k])
    ensures forall k :: 0 <= k < Min(|preConcerns|, 10) && preConcerns[k].Some? && preConcerns[k].value != "" ==>
      preConcerns[k].value in p.concerns
    ensures forall k :: 0 <= k < |postReflections| && Answered(postReflections[k]) ==>
      postReflections[k].value in p.reflections
  {
    ValidResponsesComplete(postReflections);
    ConcernPrompt(Present(Take(preConcerns, 10)), ValidResponses(postReflections))
  }

  function Min(a: int, b: int): int
  {
    if a < b then a else b
  }

  /** No response is answered exactly when each is missing or whitespace only. */
  lemma {:induction false} NoValidResponsesIffAllBlank(responses: seq<Option<string>>)
    ensures ValidResponses(responses) == [] <==>
      forall k :: 0 <= k < |responses| ==> responses[k].None? || IsBlank(responses[k].value)
  {
    if responses != [] {
      NoValidResponsesIffAllBlank(responses[1..]);
      if responses[0].Some? {
        StripEmptyIffBlank(responses[0].value);
      }
      assert forall k :: 1 <= k < |responses| ==> responses[k] == responses[1..][k - 1];
    }
  }

  /** Every answered response is kept, in order: the valid list is the answered ones, no more. */
  lemma {:induction false} ValidResponsesKeepsAnswered(responses: seq<Option<string>>, k: int)
    requires 0 <= k < |responses| && Answered(responses[k])
    ensures responses[k].value in ValidResponses(responses)
  {
    if k > 0 {
      ValidResponsesKeepsAnswered(responses[1..], k - 1);
    }
  }

  /** Every answered response is among the valid ones. */
  lemma ValidResponsesComplete(responses: seq<Option<string>>)
    ensures forall k :: 0 <= k < |responses| && Answered(responses[k]) ==> responses[k].value in ValidResponses(responses)
  {
    forall k | 0 <= k < |responses| && Answered(responses[k])
      ensures responses[k].value in ValidResponses(responses)
    {
      ValidResponsesKeepsAnswered(responses, k);
    }
  }

  /**
   * A reply that is neither JSON nor holds a `{` followed somewhere by a `}` ends in the fallback
   * over the answered responses.
   */
  lemma ReplyWithoutBracesFallsBack(x: ThemeExtractor, responses: seq<Option<string>>, question: string,
                                    maxThemes: int, call: Prompt -> Reply, parse: string -> Parsed)
    requires x.client && ValidResponses(responses) != []
    requires var reply := call(ThemePrompt(question, maxThemes, ValidResponses(responses)));
      reply.Replied? && parse(Strip(reply.text)) == NotJson &&
      forall i, j :: !BracePair(Strip(reply.text), i, j)
    ensures x.ExtractThemes(responses, question, maxThemes, call, parse) == Fallback(ValidResponses(responses))
  {
    var valid := ValidResponses(responses);
    var reply := call(ThemePrompt(question, maxThemes, valid));
    BraceSpanIsLeftmostLongest(Strip(reply.text));
    assert BraceBlock(Strip(reply.text)) == None;
    assert Answer(reply, parse) == None;
    assert responses != [];
  }

  /**
   * A readable answer, whether the whole reply or its `{...}` block, keeps its themes and gets the
   * number of answered responses as its total.
   */
  lemma ReadableReplyCountsAnswered(x: ThemeExtractor, responses: seq<Option<string>>, question: string,
                                    maxThemes: int, call: Prompt -> Reply, parse: string -> Parsed)
    requires x.client && ValidResponses(responses) != []
    requires Answer(call(ThemePrompt(question, maxThemes, ValidResponses(responses))), parse).Some?
    ensures var r := x.ExtractThemes(responses, question, maxThemes, call, parse);
      r.total == Some(|ValidResponses(responses)|) &&
      r.themes == Answer(call(ThemePrompt(question, maxThemes, ValidResponses(responses))), parse).value.themes
  {
  }

  // ---------------------------------------------------------------- report bullets

  /** `f"{theme_text} (mentioned by {count}/{total} participants)"`. */
  function MentionSuffix(count: int, total: int): string
  {
    " (mentioned by " + IntToString(count) + "/" + IntToString(total) + " participants)"
  }

  /**
   * How a theme text reads once formatted: `t.get('theme', '')` is `''` when absent, and a null
   * theme is None, which the f-string and the report's bullet both write as `None`; any other
   * non-string value is written as its `str()`.
   */
  function Shown(t: ThemeText): (s: string)
    ensures t.ThemeString? ==> s == t.s
    ensures t.NoTheme? ==> s == ""
    ensures t.NullTheme? ==> s == "None"
    ensures t.OtherTheme? ==> s == t.text
  {
    match t
    case NoTheme => ""
    case NullTheme => "None"
    case ThemeString(text) => text
    case OtherTheme(text) => text
  }

  /**
   * One bullet from a theme object's `theme` and `count`: the theme text, with the mention
   * suffix when both count and total are non-zero.
   */
  function FormatTheme(theme: ThemeText, count: Option<int>, total: int): (s: string)
    ensures Shown(theme) <= s
    ensures |s| > |Shown(theme)| <==> count.GetOr(0) != 0 && total != 0
    ensures |s| > |Shown(theme)| ==> s[|Shown(theme)|..] == MentionSuffix(count.value, total)
  {
    var text := Shown(theme);
    var n := count.GetOr(0);
    if n != 0 && total != 0 then text + MentionSuffix(n, total) else text
  }

  /** Python truthiness of a `themes` value: a non-empty array, or any truthy non-array. */
  predicate Truthy(t: ThemeList)
  {
    match t
    case Entries(entries) => entries != []
    case Falsy => false
    case NotIterable => true
    case StringsOnly => true
  }

  /** `theme_data.get('themes')` is truthy. */
  predicate HasThemes(data: Option<ThemeData>)
  {
    data.Some? && data.value.themes.Some? && Truthy(data.value.themes.value)
  }

  /** Every element of `themes` is an object. */
  predicate AllObjects(themes: seq<ThemeEntry>)
  {
    forall k :: 0 <= k < |themes| ==> themes[k].ThemeEntry?
  }

  /** The record's themes can be formatted: there are none, or they are an array of objects. */
  predicate Formattable(data: Option<ThemeData>)
  {
    !HasThemes(data) || (data.value.themes.value.Entries? && AllObjects(data.value.themes.value.entries))
  }

  /**
   * What the loop raises over themes that cannot be formatted: TypeError when the value cannot
   * be iterated, and AttributeError from `t.get` on an element that is not an object.
   */
  function FormatErrorOf(t: ThemeList): FormatError
  {
    if t.NotIterable? then TypeError else AttributeError
  }

  /**
   * `format_themes_for_report`: nothing for a missing record or one without themes; the error
   * the loop raises when the themes are not an array of objects; else one formatted line per
   * theme, in order.
   */
  method FormatThemesForReport(data: Option<ThemeData>) returns (formatted: Result<seq<string>, FormatError>)
    ensures !HasThemes(data) ==> formatted == Success([])
    ensures formatted.Failure? <==> !Formattable(data)
    ensures formatted.Failure? ==> formatted.error == FormatErrorOf(data.value.themes.value)
    ensures HasThemes(data) && formatted.Success? ==>
      var themes := data.value.themes.value.entries;
      |formatted.value| == |themes| &&
      forall k :: 0 <= k < |themes| ==>
        themes[k].ThemeEntry? &&
        formatted.value[k] == FormatTheme(themes[k].theme, themes[k].count, data.value.total.GetOr(0))
  {
    if !HasThemes(data) {
      return Success([]);
    }
    var value := data.value.themes.value;
    match value
    case NotIterable =>
      return Failure(TypeError);
    case StringsOnly =>
      return Failure(AttributeError);
    case Entries(themes) =>
      formatted := FormatEntries(themes, data.value.total.GetOr(0));
  }

  /** The loop of `format_themes_for_report` over an array of theme entries. */
  method FormatEntries(themes: seq<ThemeEntry>, total: int) returns (formatted: Result<seq<string>, FormatError>)
    ensures formatted.Failure? <==> !AllObjects(themes)
    ensures formatted.Failure? ==> formatted.error == AttributeError
    ensures formatted.Success? ==>
      |formatted.value| == |themes| &&
      forall k :: 0 <= k < |themes| ==>
        themes[k].ThemeEntry? && formatted.value[k] == FormatTheme(themes[k].theme, themes[k].count, total)
  {
    var lines := [];
    for k := 0 to |themes|
      invariant |lines| == k
      invariant forall j :: 0 <= j < k ==>
        themes[j].ThemeEntry? && lines[j] == FormatTheme(themes[j].theme, themes[j].count, total)
    {
      var t := themes[k];
      if t.NotAnObject? {
        assert !AllObjects(themes);
        return Failure(AttributeError);
      }
      var text := Shown(t.theme);
      var count := t.count.GetOr(0);
      var line := text;
      if count != 0 && total != 0 {
        line := text + MentionSuffix(count, total);
      }
      lines := lines + [line];
    }
    formatted := Success(lines);
  }
}
