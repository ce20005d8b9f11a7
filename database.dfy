/**
 * The assessment store as an in-memory relational state: each table is a map from its key to
 * its record, and each operation is the map update its SQL statement performs. Row ids come
 * from AUTOINCREMENT counters (the next id is one past the largest ever issued); the ratings and
 * open-response tables are keyed by their UNIQUE (assessment, item) pair, which makes the
 * "one row per pair" constraint structural. SQLite does not enforce the declared foreign keys
 * unless asked to, so neither does the model. A statement that violates a constraint raises
 * before anything is committed, and the model then leaves the state as it was.
 */
module Store {
  import opened Wrappers
  import opened Text

  datatype Kind = PRE | POST

  datatype Cohort = Cohort(name: string, programme: Option<string>, description: Option<string>,
                           startDate: Option<string>, endDate: Option<string>)

  datatype Participant = Participant(cohortId: int, name: string, email: Option<string>, role: Option<string>)

  datatype Assessment = Assessment(participantId: int, kind: Kind, token: string,
                                   startedAt: Option<string>, completedAt: Option<string>)

  /** The constraint a failed statement violated. */
  datatype DbError = UniqueViolation | CheckViolation | NotNullViolation

  /** `(assessment_id, item_number)` or `(assessment_id, question_number)`. */
  type Key = (int, int)

  /** Python truthiness of a nullable text column: present and non-empty. */
  predicate Truthy(o: Option<string>)
  {
    o.Some? && o.value != ""
  }

  /** Some assessment already carries `token` (the UNIQUE constraint on `access_token`). */
  predicate TokenUsed(t: map<int, Assessment>, token: string)
  {
    exists id :: id in t && t[id].token == token
  }

  predicate UniqueTokens(t: map<int, Assessment>)
  {
    forall i, j :: i in t && j in t && t[i].token == t[j].token ==> i == j
  }

  predicate OnScale(score: int)
  {
    1 <= score <= 6
  }

  // ---------------------------------------------------------------- upserts

  /** The rows `INSERT ... ON CONFLICT DO UPDATE` writes for the entries `keys` of `entries`. */
  function Rows<V>(assessmentId: int, entries: map<int, V>, keys: set<int>): (r: map<Key, V>)
    requires keys <= entries.Keys
    ensures forall k :: k in r <==> k.0 == assessmentId && k.1 in keys
    ensures forall k :: k in r ==> r[k] == entries[k.1]
  {
    map n | n in keys :: (assessmentId, n) := entries[n]
  }

  /** Every entry of a batch passes the table's CHECK constraint `check`. */
  predicate AllPass<V>(entries: map<int, V>, check: V -> bool)
  {
    forall n :: n in entries ==> check(entries[n])
  }

  /** The open-responses table has no CHECK constraint: every text, or NULL, is accepted. */
  predicate NoCheck(text: Option<string>)
  {
    true
  }

  /** Upserting on-scale scores into a table of on-scale scores leaves every score on the scale. */
  lemma UpsertsStayOnScale(t: map<Key, int>, assessmentId: int, entries: map<int, int>)
    requires forall k :: k in t ==> OnScale(t[k])
    requires AllPass(entries, OnScale)
    ensures forall k :: k in t + Rows(assessmentId, entries, entries.Keys) ==>
      OnScale((t + Rows(assessmentId, entries, entries.Keys))[k])
  {
  }

  /** Writing one more entry of a batch is one more single upsert. */
  lemma RowsStep<V>(t: map<Key, V>, assessmentId: int, entries: map<int, V>, keys: set<int>, n: int)
    requires keys <= entries.Keys && n in entries
    ensures t + Rows(assessmentId, entries, keys + {n}) == (t + Rows(assessmentId, entries, keys))[(assessmentId, n) := entries[n]]
  {
    var lhs := t + Rows(assessmentId, entries, keys + {n});
    var rhs := (t + Rows(assessmentId, entries, keys))[(assessmentId, n) := entries[n]];
    assert lhs.Keys == rhs.Keys;
    forall k | k in lhs ensures lhs[k] == rhs[k] {
    }
  }

  /**
   * The batch upsert agrees with the single one: saving a batch that also (re)writes `n` is
   * saving the batch without that entry and then upserting `n` alone; the last write wins.
   */
  lemma BatchIsSingleUpserts<V>(t: map<Key, V>, assessmentId: int, entries: map<int, V>, n: int, v: V)
    ensures t + Rows(assessmentId, entries[n := v], entries.Keys + {n})
         == (t + Rows(assessmentId, entries - {n}, entries.Keys - {n}))[(assessmentId, n) := v]
  {
    var lhs := t + Rows(assessmentId, entries[n := v], entries.Keys + {n});
    var rhs := (t + Rows(assessmentId, entries - {n}, entries.Keys - {n}))[(assessmentId, n) := v];
    assert lhs.Keys == rhs.Keys;
    forall k | k in lhs ensures lhs[k] == rhs[k] {
      if k == (assessmentId, n) {
      } else if k.0 == assessmentId && k.1 in entries {
        assert k.1 != n;
      }
    }
  }

  // ---------------------------------------------------------------- started / completed

  /** `SET started_at = ? WHERE access_token = ? AND started_at IS NULL`, on one row. */
  function Started(a: Assessment, token: string, now: string): Assessment
  {
    if a.token == token && a.startedAt.None? then a.(startedAt := Some(now)) else a
  }

  /** `SET completed_at = ? WHERE access_token = ?`, on one row. */
  function Completed(a: Assessment, token: string, now: string): Assessment
  {
    if a.token == token then a.(completedAt := Some(now)) else a
  }

  /**
   * The assessments after `mark_assessment_started`: the row with the token gets a start time
   * when it has none and keeps the one it has otherwise; every other row is unchanged.
   */
  function StartAll(t: map<int, Assessment>, token: string, now: string): (r: map<int, Assessment>)
    ensures r.Keys == t.Keys
    ensures forall id :: id in t && t[id].token != token ==> r[id] == t[id]
    ensures forall id :: id in t && t[id].token == token ==>
      r[id] == t[id].(startedAt := if t[id].startedAt.Some? then t[id].startedAt else Some(now))
  {
    map id | id in t :: Started(t[id], token, now)
  }

  /**
   * The assessments after `mark_assessment_completed`: the row with the token gets the new
   * completion time whatever it had; every other row is unchanged.
   */
  function CompleteAll(t: map<int, Assessment>, token: string, now: string): (r: map<int, Assessment>)
    ensures r.Keys == t.Keys
    ensures forall id :: id in t && t[id].token != token ==> r[id] == t[id]
    ensures forall id :: id in t && t[id].token == token ==> r[id] == t[id].(completedAt := Some(now))
  {
    map id | id in t :: Completed(t[id], token, now)
  }

  /** Marking an assessment started a second time changes nothing: the first start time stays. */
  lemma MarkStartedOnlyOnce(t: map<int, Assessment>, token: string, first: string, second: string)
    ensures StartAll(StartAll(t, token, first), token, second) == StartAll(t, token, first)
  {
    var once := StartAll(t, token, first);
    var twice := StartAll(once, token, second);
    forall id | id in twice ensures twice[id] == once[id] {
    }
  }

  /** Marking an assessment completed again overwrites: only the last completion time is kept. */
  lemma MarkCompletedOverwrites(t: map<int, Assessment>, token: string, first: string, second: string)
    ensures CompleteAll(CompleteAll(t, token, first), token, second) == CompleteAll(t, token, second)
  {
    var once := CompleteAll(t, token, first);
    var twice := CompleteAll(once, token, second);
    var direct := CompleteAll(t, token, second);
    forall id | id in twice ensures twice[id] == direct[id] {
    }
  }

  // ---------------------------------------------------------------- update_cohort

  const VALID_FIELDS: seq<string> := ["name", "programme", "description", "start_date", "end_date"]

  /** `{k: v for k, v in kwargs.items() if k in valid_fields}`, in the order given. */
  function Kept(kwargs: seq<(string, Option<string>)>): (r: seq<(string, Option<string>)>)
    ensures forall k :: 0 <= k < |r| ==> r[k].0 in VALID_FIELDS && r[k] in kwargs
    ensures forall k :: 0 <= k < |kwargs| && kwargs[k].0 in VALID_FIELDS ==> kwargs[k] in r
  {
    if kwargs == [] then []
    else
      var rest := Kept(kwargs[1..]);
      assert forall k :: 1 <= k < |kwargs| ==> kwargs[k] == kwargs[1..][k - 1];
      if kwargs[0].0 in VALID_FIELDS then [kwargs[0]] + rest else rest
  }

  /**
   * `r` picks the entries of `kwargs` at the strictly increasing positions `idx`, and every
   * whitelisted entry's position is among them: `r` is the whitelisted entries, each once, in
   * the order given.
   */
  ghost predicate PicksWhitelisted(kwargs: seq<(string, Option<string>)>, r: seq<(string, Option<string>)>, idx: seq<int>)
  {
    && |idx| == |r|
    && (forall k :: 0 <= k < |idx| ==> 0 <= idx[k] < |kwargs| && r[k] == kwargs[idx[k]])
    && (forall k :: 0 <= k < |idx| - 1 ==> idx[k] < idx[k + 1])
    && (forall j :: 0 <= j < |kwargs| && kwargs[j].0 in VALID_FIELDS ==> j in idx)
  }

  /** The positions `idx'` picked from `tail`, each moved one place right past a new head. */
  function Shifted(idx': seq<int>): (s: seq<int>)
    ensures |s| == |idx'| && forall k :: 0 <= k < |s| ==> s[k] == idx'[k] + 1
  {
    seq(|idx'|, k requires 0 <= k < |idx'| => idx'[k] + 1)
  }

  /** Picking from `tail` extends to picking from `[x] + tail` when `x` is not whitelisted. */
  lemma PickSkip(x: (string, Option<string>), tail: seq<(string, Option<string>)>,
                 rt: seq<(string, Option<string>)>, idx': seq<int>)
    requires x.0 !in VALID_FIELDS
    requires PicksWhitelisted(tail, rt, idx')
    ensures PicksWhitelisted([x] + tail, rt, Shifted(idx'))
  {
    var kwargs, idx := [x] + tail, Shifted(idx');
    forall k | 0 <= k < |idx|
      ensures 0 <= idx[k] < |kwargs| && rt[k] == kwargs[idx[k]]
    {
      assert kwargs[idx[k]] == tail[idx'[k]];
    }
    forall j | 0 <= j < |kwargs| && kwargs[j].0 in VALID_FIELDS
      ensures j in idx
    {
      assert j != 0;
      assert tail[j - 1] == kwargs[j];
      var k :| 0 <= k < |idx'| && idx'[k] == j - 1;
      assert idx[k] == j;
    }
  }

  /** Picking from `tail` extends to picking from `[x] + tail` when `x` is whitelisted: position 0 comes first. */
  lemma PickTake(x: (string, Option<string>), tail: seq<(string, Option<string>)>,
                 rt: seq<(string, Option<string>)>, idx': seq<int>)
    requires x.0 in VALID_FIELDS
    requires PicksWhitelisted(tail, rt, idx')
    ensures PicksWhitelisted([x] + tail, [x] + rt, [0] + Shifted(idx'))
  {
    var kwargs, r, idx := [x] + tail, [x] + rt, [0] + Shifted(idx');
    forall k | 0 <= k < |idx|
      ensures 0 <= idx[k] < |kwargs| && r[k] == kwargs[idx[k]]
    {
      if k > 0 {
        assert idx[k] == idx'[k - 1] + 1;
        assert kwargs[idx[k]] == tail[idx'[k - 1]];
      }
    }
    forall k | 0 <= k < |idx| - 1
      ensures idx[k] < idx[k + 1]
    {
      if k > 0 {
        assert idx[k] == idx'[k - 1] + 1 && idx[k + 1] == idx'[k] + 1;
      }
    }
    forall j | 0 <= j < |kwargs| && kwargs[j].0 in VALID_FIELDS
      ensures j in idx
    {
      if j > 0 {
        assert tail[j - 1] == kwargs[j];
        var k :| 0 <= k < |idx'| && idx'[k] == j - 1;
        assert idx[k + 1] == j;
      }
    }
  }

  /** The kept entries are the whitelisted ones in kwargs order, with nothing repeated or dropped. */
  lemma {:induction false} KeptInOrder(kwargs: seq<(string, Option<string>)>)
    ensures exists idx :: PicksWhitelisted(kwargs, Kept(kwargs), idx)
  {
    if kwargs == [] {
      assert PicksWhitelisted(kwargs, Kept(kwargs), []);
    } else {
      var tail := kwargs[1..];
      KeptInOrder(tail);
      var idx' :| PicksWhitelisted(tail, Kept(tail), idx');
      assert kwargs == [kwargs[0]] + tail;
      if kwargs[0].0 in VALID_FIELDS {
        PickTake(kwargs[0], tail, Kept(tail), idx');
        assert PicksWhitelisted(kwargs, Kept(kwargs), [0] + Shifted(idx'));
      } else {
        PickSkip(kwargs[0], tail, Kept(tail), idx');
        assert PicksWhitelisted(kwargs, Kept(kwargs), Shifted(idx'));
      }
    }
  }

  /** A parameter bound to a `?` placeholder. */
  datatype Param = IdParam(id: int) | TextParam(text: Option<string>)

  datatype Statement = Statement(sql: string, params: seq<Param>)

  const SET_PREFIX := "UPDATE cohorts SET "
  const ASSIGN := " = "
  const ID_CONDITION := " WHERE id = "

  /** `f'{k} = ?'`. */
  function Assignment(field: string): string
  {
    field + ASSIGN + "?"
  }

  /** `', '.join(f'{k} = ?' for k in updates.keys())`. */
  function SetClause(updates: seq<(string, Option<string>)>): string
  {
    Join(seq(|updates|, i requires 0 <= i < |updates| => Assignment(updates[i].0)), ", ")
  }

  /** No whitelisted column name holds a `?`. */
  lemma FieldNamesHaveNoPlaceholder(name: string)
    requires name in VALID_FIELDS
    ensures '?' !in name
  {
  }

  /** Counting `ch` in `a + b + c + d` when neither `a` nor `c` holds it. */
  lemma CountAround(a: string, b: string, c: string, d: string, ch: char)
    requires ch !in a && ch !in c
    ensures CountChar(a + b + c + d, ch) == CountChar(b, ch) + CountChar(d, ch)
  {
    CountCharAbsent(a, ch);
    CountCharAbsent(c, ch);
    CountCharAppend(a, b, ch);
    CountCharAppend(a + b, c, ch);
    CountCharAppend(a + b + c, d, ch);
  }

  lemma AssignmentHasOnePlaceholder(field: string)
    requires '?' !in field
    ensures CountChar(Assignment(field), '?') == 1
  {
    CountCharAbsent(field, '?');
    CountAround("", field, ASSIGN, "?", '?');
    assert "" + field + ASSIGN + "?" == Assignment(field);
    assert CountChar("?", '?') == 1;
  }

  /** The placeholders of a SET clause: one per kept field. */
  lemma SetClausePlaceholders(updates: seq<(string, Option<string>)>)
    requires forall k :: 0 <= k < |updates| ==> updates[k].0 in VALID_FIELDS
    ensures CountChar(SetClause(updates), '?') == |updates|
  {
    var parts := seq(|updates|, i requires 0 <= i < |updates| => Assignment(updates[i].0));
    forall k | 0 <= k < |parts| ensures CountChar(parts[k], '?') == 1 {
      FieldNamesHaveNoPlaceholder(updates[k].0);
      AssignmentHasOnePlaceholder(updates[k].0);
    }
    CountCharAbsent(", ", '?');
    CountCharJoin(parts, ", ", '?', 1);
  }

  /**
   * The UPDATE statement `update_cohort` executes, or None when no whitelisted field is given:
   * one `k = ?` per kept field, the kept values and then the cohort id as parameters, so that
   * there are exactly as many placeholders as parameters.
   */
  function UpdateStatement(cohortId: int, kwargs: seq<(string, Option<string>)>): (r: Option<Statement>)
    ensures r.None? <==> Kept(kwargs) == []
    ensures r.Some? ==> CountChar(r.value.sql, '?') == |r.value.params| == |Kept(kwargs)| + 1
    ensures r.Some? ==> r.value.params[|r.value.params| - 1] == IdParam(cohortId)
    ensures r.Some? ==> forall k :: 0 <= k < |Kept(kwargs)| ==> r.value.params[k] == TextParam(Kept(kwargs)[k].1)
  {
    var updates := Kept(kwargs);
    if updates == [] then None
    else
      var sql := SET_PREFIX + SetClause(updates) + ID_CONDITION + "?";
      SetClausePlaceholders(updates);
      CountAround(SET_PREFIX, SetClause(updates), ID_CONDITION, "?", '?');
      Some(Statement(sql, seq(|updates|, i requires 0 <= i < |updates| => TextParam(updates[i].1)) + [IdParam(cohortId)]))
  }

  /** The value the update gives to `field`, the last one listed, or `current` when none is. */
  function NewValue(updates: seq<(string, Option<string>)>, field: string, current: Option<string>): Option<string>
  {
    if updates == [] then current
    else if updates[|updates| - 1].0 == field then updates[|updates| - 1].1
    else NewValue(updates[..|updates| - 1], field, current)
  }

  /**
   * The cohort row after the SET clause, or None when it would make `name` NULL
   * (`name TEXT NOT NULL`).
   */
  function Apply(c: Cohort, updates: seq<(string, Option<string>)>): (r: Option<Cohort>)
    ensures r.None? <==> NewValue(updates, "name", Some(c.name)).None?
    ensures r.Some? ==> (Some(r.value.name) == NewValue(updates, "name", Some(c.name)) &&
      r.value.programme == NewValue(updates, "programme", c.programme) &&
      r.value.description == NewValue(updates, "description", c.description) &&
      r.value.startDate == NewValue(updates, "start_date", c.startDate) &&
      r.value.endDate == NewValue(updates, "end_date", c.endDate))
  {
    match NewValue(updates, "name", Some(c.name))
    case None => None
    case Some(name) =>
      Some(Cohort(name, NewValue(updates, "programme", c.programme), NewValue(updates, "description", c.description),
                  NewValue(updates, "start_date", c.startDate), NewValue(updates, "end_date", c.endDate)))
  }

  /** A field the update does not name keeps its value. */
  lemma {:induction false} UnnamedFieldKept(updates: seq<(string, Option<string>)>, field: string, current: Option<string>)
    requires forall k :: 0 <= k < |updates| ==> updates[k].0 != field
    ensures NewValue(updates, field, current) == current
  {
    if updates != [] {
      UnnamedFieldKept(updates[..|updates| - 1], field, current);
    }
  }

  // ---------------------------------------------------------------- cascades

  /** The assessments belonging to any of the participants `ps`. */
  function AssessmentsOf(t: map<int, Assessment>, ps: set<int>): (r: set<int>)
    ensures forall id :: id in r <==> id in t && t[id].participantId in ps
  {
    set id | id in t && t[id].participantId in ps
  }

  /** The assessments that belong to none of the participants `ps`. */
  function NotOf(t: map<int, Assessment>, ps: set<int>): (r: map<int, Assessment>)
    ensures forall id :: id in r <==> id in t && t[id].participantId !in ps
    ensures forall id :: id in r ==> r[id] == t[id]
  {
    map id | id in t && t[id].participantId !in ps :: t[id]
  }

  /** The rows of a ratings or responses table whose assessment is not in `gone`. */
  function Without<V>(t: map<Key, V>, gone: set<int>): (r: map<Key, V>)
    ensures forall k :: k in r <==> k in t && k.0 !in gone
    ensures forall k :: k in r ==> r[k] == t[k]
  {
    map k | k in t && k.0 !in gone :: t[k]
  }

  lemma WithoutTwice<V>(t: map<Key, V>, a: set<int>, b: set<int>)
    ensures Without(Without(t, a), b) == Without(t, a + b)
  {
    assert Without(Without(t, a), b).Keys == Without(t, a + b).Keys;
  }

  lemma NotOfTwice(t: map<int, Assessment>, a: set<int>, b: set<int>)
    ensures NotOf(NotOf(t, a), b) == NotOf(t, a + b)
    ensures AssessmentsOf(NotOf(t, a), b) == AssessmentsOf(t, b) - AssessmentsOf(t, a)
  {
    assert NotOf(NotOf(t, a), b).Keys == NotOf(t, a + b).Keys;
  }

  // ---------------------------------------------------------------- reporting queries

  /** Row `id` of `t` is an assessment of `kind` for participant `pid`. */
  predicate Matches(t: map<int, Assessment>, id: int, pid: int, kind: Kind)
  {
    id in t && t[id].participantId == pid && t[id].kind == kind
  }

  /** `o` is what the bucketing loop leaves after the rows below `bound`: the last matching one. */
  ghost predicate LatestBelow(o: Option<int>, t: map<int, Assessment>, pid: int, kind: Kind, bound: int)
  {
    (o.None? <==> forall id :: Matches(t, id, pid, kind) ==> id >= bound) &&
    (o.Some? ==> o.value < bound && Matches(t, o.value, pid, kind) &&
                 forall id :: Matches(t, id, pid, kind) && id < bound ==> id <= o.value)
  }

  /** `o` is the last (highest id) assessment of `kind` for `pid`, or None when there is none. */
  ghost predicate Latest(o: Option<int>, t: map<int, Assessment>, pid: int, kind: Kind)
  {
    (o.None? <==> forall id :: !Matches(t, id, pid, kind)) &&
    (o.Some? ==> Matches(t, o.value, pid, kind) && forall id :: Matches(t, id, pid, kind) ==> id <= o.value)
  }

  /** `{'PRE': ..., 'POST': ...}`: the id of the assessment in each bucket, or None. */
  datatype Buckets = Buckets(pre: Option<int>, post: Option<int>)

  /** A completed stage of a participant: `{'assessment', 'ratings', 'open_responses'}`. */
  datatype Stage = Stage(assessmentId: int, assessment: Assessment, ratings: map<int, int>,
                         openResponses: map<int, Option<string>>)

  datatype ParticipantData = ParticipantData(participantId: int, participant: Participant, cohort: Option<Cohort>,
                                             pre: Option<Stage>, post: Option<Stage>)

  datatype CohortData = CohortData(cohort: Cohort, participants: seq<ParticipantData>,
                                   preCompleted: nat, postCompleted: nat, total: nat)

  /** The number of participants in `s` with a completed stage of `kind`. */
  function CountCompleted(s: seq<ParticipantData>, kind: Kind): (n: nat)
    ensures n <= |s|
  {
    if s == [] then 0
    else CountCompleted(s[..|s| - 1], kind) + if StageOf(s[|s| - 1], kind).Some? then 1 else 0
  }

  function StageOf(d: ParticipantData, kind: Kind): Option<Stage>
  {
    if kind == PRE then d.pre else d.post
  }

  /** Appending one participant's data adds one to a counter exactly when that stage is reported. */
  lemma CountCompletedAppend(s: seq<ParticipantData>, d: ParticipantData)
    ensures CountCompleted(s + [d], PRE) == CountCompleted(s, PRE) + if d.pre.Some? then 1 else 0
    ensures CountCompleted(s + [d], POST) == CountCompleted(s, POST) + if d.post.Some? then 1 else 0
  {
    assert (s + [d])[..|s + [d]| - 1] == s;
  }

  /** No completion is counted exactly when no participant has a reported stage of that kind. */
  lemma {:induction false} NoneCompleted(s: seq<ParticipantData>, kind: Kind)
    ensures CountCompleted(s, kind) == 0 <==> forall k :: 0 <= k < |s| ==> StageOf(s[k], kind).None?
  {
    if s != [] {
      NoneCompleted(s[..|s| - 1], kind);
      assert forall k :: 0 <= k < |s| - 1 ==> s[..|s| - 1][k] == s[k];
    }
  }

  class Database {
    var cohorts: map<int, Cohort>
    var participants: map<int, Participant>
    var assessments: map<int, Assessment>
    var ratings: map<Key, int>
    var responses: map<Key, Option<string>>
    var nextCohort: int
    var nextParticipant: int
    var nextAssessment: int

    /**
     * Ids are below their table's counter, access tokens are unique, and every stored score
     * passes `CHECK (score >= 1 AND score <= 6)`.
     */
    predicate Valid()
      reads this
    {
      1 <= nextCohort && 1 <= nextParticipant && 1 <= nextAssessment &&
      (forall id :: id in cohorts ==> 1 <= id < nextCohort) &&
      (forall id :: id in participants ==> 1 <= id < nextParticipant) &&
      (forall id :: id in assessments ==> 1 <= id < nextAssessment) &&
      UniqueTokens(assessments) &&
      (forall k :: k in ratings ==> OnScale(ratings[k]))
    }

    /** `init_database` on a new file: every table empty. */
    constructor ()
      ensures Valid()
      ensures cohorts == map[] && participants == map[] && assessments == map[]
      ensures ratings == map[] && responses == map[]
      ensures nextCohort == 1 && nextParticipant == 1 && nextAssessment == 1
    {
      cohorts, participants, assessments := map[], map[], map[];
      ratings, responses := map[], map[];
      nextCohort, nextParticipant, nextAssessment := 1, 1, 1;
    }

    /** `create_cohort`: one new row under a fresh id, which is returned. */
    method CreateCohort(name: string, programme: Option<string>, description: Option<string>,
                        startDate: Option<string>, endDate: Option<string>) returns (id: int)
      requires Valid()
      modifies this
      ensures Valid() && id == old(nextCohort) && id !in old(cohorts)
      ensures cohorts == old(cohorts)[id := Cohort(name, programme, description, startDate, endDate)]
      ensures nextCohort == id + 1 && nextParticipant == old(nextParticipant) && nextAssessment == old(nextAssessment)
      ensures participants == old(participants) && assessments == old(assessments)
      ensures ratings == old(ratings) && responses == old(responses)
    {
      id := nextCohort;
      cohorts := cohorts[id := Cohort(name, programme, description, startDate, endDate)];
      nextCohort := nextCohort + 1;
    }

    /**
     * `create_assessment` with `token` as the generated access token: a new row with neither
     * start nor completion time, unless the token is already taken, when the insert fails.
     */
    method CreateAssessment(participantId: int, kind: Kind, token: string) returns (r: Result<string, DbError>)
      requires Valid()
      modifies this
      ensures Valid()
      ensures TokenUsed(old(assessments), token) ==>
        r == Failure(UniqueViolation) && assessments == old(assessments) && nextAssessment == old(nextAssessment)
      ensures !TokenUsed(old(assessments), token) ==>
        r == Success(token) && old(nextAssessment) !in old(assessments) &&
        assessments == old(assessments)[old(nextAssessment) := Assessment(participantId, kind, token, None, None)] &&
        nextAssessment == old(nextAssessment) + 1
      ensures cohorts == old(cohorts) && participants == old(participants)
      ensures ratings == old(ratings) && responses == old(responses)
      ensures nextCohort == old(nextCohort) && nextParticipant == old(nextParticipant)
    {
      if exists id :: id in assessments && assessments[id].token == token {
        return Failure(UniqueViolation);
      }
      assessments := assessments[nextAssessment := Assessment(participantId, kind, token, None, None)];
      nextAssessment := nextAssessment + 1;
      r := Success(token);
    }

    /**
     * `create_participant` with `preToken` and `postToken` as the two generated tokens: the
     * participant row is committed first, then a PRE and a POST assessment are created for it.
     * A token collision makes the call raise, leaving the participant (and the PRE assessment,
     * when only the second token collides) in place.
     */
    method CreateParticipant(cohortId: int, name: string, email: Option<string>, role: Option<string>,
                             preToken: string, postToken: string) returns (r: Result<int, DbError>)
      requires Valid()
      modifies this
      ensures Valid()
      ensures participants == old(participants)[old(nextParticipant) := Participant(cohortId, name, email, role)]
      ensures old(nextParticipant) !in old(participants) && nextParticipant == old(nextParticipant) + 1
      ensures var pid := old(nextParticipant);
        var a := old(nextAssessment);
        var pre := Assessment(pid, PRE, preToken, None, None);
        var post := Assessment(pid, POST, postToken, None, None);
        if TokenUsed(old(assessments), preToken) then
          r == Failure(UniqueViolation) && assessments == old(assessments) && nextAssessment == a
        else if TokenUsed(old(assessments), postToken) || postToken == preToken then
          r == Failure(UniqueViolation) && assessments == old(assessments)[a := pre] && nextAssessment == a + 1
        else
          r == Success(pid) && assessments == old(assessments)[a := pre][a + 1 := post] && nextAssessment == a + 2
      ensures cohorts == old(cohorts) && ratings == old(ratings) && responses == old(responses)
      ensures nextCohort == old(nextCohort)
    {
      var pid := nextParticipant;
      participants := participants[pid := Participant(cohortId, name, email, role)];
      nextParticipant := nextParticipant + 1;
      var pre := CreateAssessment(pid, PRE, preToken);
      if pre.Failure? {
        return Failure(pre.error);
      }
      ghost var mid := assessments;
      ghost var a := old(nextAssessment);
      assert mid == old(assessments)[a := Assessment(pid, PRE, preToken, None, None)] && a !in old(assessments);
      if postToken == preToken {
        assert mid[a].token == postToken;
      }
      if TokenUsed(old(assessments), postToken) {
        var used :| used in old(assessments) && old(assessments)[used].token == postToken;
        assert used in mid && mid[used].token == postToken;
      }
      if TokenUsed(mid, postToken) {
        var used :| used in mid && mid[used].token == postToken;
        assert used == a || used in old(assessments);
      }
      var post := CreateAssessment(pid, POST, postToken);
      if post.Failure? {
        return Failure(post.error);
      }
      r := Success(pid);
    }

    /**
     * `save_rating`: the pair (assessment, item) now maps to `score`, whether it was rated before
     * or not, and no other rating changes; a score off the 1-6 scale fails the CHECK constraint.
     */
    method SaveRating(assessmentId: int, itemNumber: int, score: int) returns (r: Result<(), DbError>)
      requires Valid()
      modifies this
      ensures Valid()
      ensures OnScale(score) ==> r == Success(()) && ratings == old(ratings)[(assessmentId, itemNumber) := score]
      ensures !OnScale(score) ==> r == Failure(CheckViolation) && ratings == old(ratings)
      ensures cohorts == old(cohorts) && participants == old(participants) && assessments == old(assessments)
      ensures responses == old(responses)
      ensures nextCohort == old(nextCohort) && nextParticipant == old(nextParticipant) && nextAssessment == old(nextAssessment)
    {
      if !OnScale(score) {
        return Failure(CheckViolation);
      }
      ratings := ratings[(assessmentId, itemNumber) := score];
      r := Success(());
    }

    /**
     * `save_all_ratings`: every entry upserted in one transaction, committed at the end; one
     * score off the scale makes the whole call raise, and nothing is saved.
     */
    method SaveAllRatings(assessmentId: int, entries: map<int, int>) returns (r: Result<(), DbError>)
      requires Valid()
      modifies this
      ensures Valid()
      ensures AllPass(entries, OnScale) ==>
        r == Success(()) && ratings == old(ratings) + Rows(assessmentId, entries, entries.Keys)
      ensures !AllPass(entries, OnScale) ==>
        r == Failure(CheckViolation) && ratings == old(ratings)
      ensures cohorts == old(cohorts) && participants == old(participants) && assessments == old(assessments)
      ensures responses == old(responses)
      ensures nextCohort == old(nextCohort) && nextParticipant == old(nextParticipant) && nextAssessment == old(nextAssessment)
    {
      var staged := RunUpserts(ratings, assessmentId, entries, OnScale);
      if staged.None? {
        return Failure(CheckViolation);
      }
      UpsertsStayOnScale(ratings, assessmentId, entries);
      ratings := staged.value;
      r := Success(());
    }

    /** `save_open_response`: the pair (assessment, question) now maps to `text`; nothing else changes. */
    method SaveOpenResponse(assessmentId: int, questionNumber: int, text: Option<string>)
      requires Valid()
      modifies this
      ensures Valid()
      ensures responses == old(responses)[(assessmentId, questionNumber) := text]
      ensures cohorts == old(cohorts) && participants == old(participants) && assessments == old(assessments)
      ensures ratings == old(ratings)
      ensures nextCohort == old(nextCohort) && nextParticipant == old(nextParticipant) && nextAssessment == old(nextAssessment)
    {
      responses := responses[(assessmentId, questionNumber) := text];
    }

    /** `save_all_open_responses`: every entry upserted, the last write to a pair winning. */
    method SaveAllOpenResponses(assessmentId: int, entries: map<int, Option<string>>)
      requires Valid()
      modifies this
      ensures Valid()
      ensures responses == old(responses) + Rows(assessmentId, entries, entries.Keys)
      ensures cohorts == old(cohorts) && participants == old(participants) && assessments == old(assessments)
      ensures ratings == old(ratings)
      ensures nextCohort == old(nextCohort) && nextParticipant == old(nextParticipant) && nextAssessment == old(nextAssessment)
    {
      assert AllPass(entries, NoCheck);
      var staged := RunUpserts(responses, assessmentId, entries, NoCheck);
      responses := staged.value;
    }

    /** `mark_assessment_started`: a start time is set only on an assessment that has none. */
    method MarkAssessmentStarted(token: string, now: string)
      requires Valid()
      modifies this
      ensures Valid()
      ensures assessments == StartAll(old(assessments), token, now)
      ensures cohorts == old(cohorts) && participants == old(participants)
      ensures ratings == old(ratings) && responses == old(responses)
      ensures nextCohort == old(nextCohort) && nextParticipant == old(nextParticipant) && nextAssessment == old(nextAssessment)
    {
      assessments := StartAll(assessments, token, now);
    }

    /** `mark_assessment_completed`: the completion time is set, overwriting any earlier one. */
    method MarkAssessmentCompleted(token: string, now: string)
      requires Valid()
      modifies this
      ensures Valid()
      ensures assessments == CompleteAll(old(assessments), token, now)
      ensures cohorts == old(cohorts) && participants == old(participants)
      ensures ratings == old(ratings) && responses == old(responses)
      ensures nextCohort == old(nextCohort) && nextParticipant == old(nextParticipant) && nextAssessment == old(nextAssessment)
    {
      assessments := CompleteAll(assessments, token, now);
    }

    /**
     * `update_cohort`: nothing happens when no whitelisted field is given or the cohort does not
     * exist; otherwise the fields named are set, unless `name` would become NULL, which fails.
     */
    method UpdateCohort(cohortId: int, kwargs: seq<(string, Option<string>)>) returns (r: Result<(), DbError>)
      requires Valid()
      modifies this
      ensures Valid()
      ensures Kept(kwargs) == [] || cohortId !in old(cohorts) ==> r == Success(()) && cohorts == old(cohorts)
      ensures Kept(kwargs) != [] && cohortId in old(cohorts) ==>
        match Apply(old(cohorts)[cohortId], Kept(kwargs))
        case None => r == Failure(NotNullViolation) && cohorts == old(cohorts)
        case Some(c) => r == Success(()) && cohorts == old(cohorts)[cohortId := c]
      ensures participants == old(participants) && assessments == old(assessments)
      ensures ratings == old(ratings) && responses == old(responses)
      ensures nextCohort == old(nextCohort) && nextParticipant == old(nextParticipant) && nextAssessment == old(nextAssessment)
    {
      var statement := UpdateStatement(cohortId, kwargs);
      if statement.None? || cohortId !in cohorts {
        return Success(());
      }
      var updated := Apply(cohorts[cohortId], Kept(kwargs));
      if updated.None? {
        return Failure(NotNullViolation);
      }
      cohorts := cohorts[cohortId := updated.value];
      r := Success(());
    }

    /**
     * `delete_participant`: the participant, its assessments and their ratings and responses
     * are gone; nothing else is touched.
     */
    method DeleteParticipant(pid: int)
      requires Valid()
      modifies this
      ensures Valid()
      ensures participants == old(participants) - {pid}
      ensures assessments == NotOf(old(assessments), {pid})
      ensures ratings == Without(old(ratings), AssessmentsOf(old(assessments), {pid}))
      ensures responses == Without(old(responses), AssessmentsOf(old(assessments), {pid}))
      ensures forall id :: id in assessments ==> assessments[id].participantId != pid
      ensures forall k :: k in ratings ==> k.0 !in AssessmentsOf(old(assessments), {pid})
      ensures forall k :: k in responses ==> k.0 !in AssessmentsOf(old(assessments), {pid})
      ensures cohorts == old(cohorts)
      ensures nextCohort == old(nextCohort) && nextParticipant == old(nextParticipant) && nextAssessment == old(nextAssessment)
    {
      assessments, ratings, responses := PurgeParticipant(assessments, ratings, responses, pid);
      participants := participants - {pid};
    }

    /** The participants of cohort `cid`. */
    function MembersOf(cid: int): (r: set<int>)
      reads this
      ensures forall id :: id in r <==> id in participants && participants[id].cohortId == cid
    {
      set id | id in participants && participants[id].cohortId == cid
    }

    /**
     * `delete_cohort`: for each participant of the cohort, its assessments with their ratings
     * and responses; then the participants; then the cohort.
     */
    method DeleteCohort(cid: int)
      requires Valid()
      modifies this
      ensures Valid()
      ensures cohorts == old(cohorts) - {cid}
      ensures participants == old(participants) - old(MembersOf(cid))
      ensures assessments == NotOf(old(assessments), old(MembersOf(cid)))
      ensures ratings == Without(old(ratings), AssessmentsOf(old(assessments), old(MembersOf(cid))))
      ensures responses == Without(old(responses), AssessmentsOf(old(assessments), old(MembersOf(cid))))
      ensures forall id :: id in participants ==> participants[id].cohortId != cid
      ensures nextCohort == old(nextCohort) && nextParticipant == old(nextParticipant) && nextAssessment == old(nextAssessment)
    {
      var members := MembersOf(cid);
      assessments, ratings, responses := PurgeParticipants(assessments, ratings, responses, members);
      participants := participants - members;
      cohorts := cohorts - {cid};
    }

    /**
     * `get_assessments_for_participant`: the rows read in id order, each overwriting its type's
     * bucket, so each bucket holds the last assessment of its type, or None.
     */
    method GetAssessmentsForParticipant(pid: int) returns (b: Buckets)
      requires Valid()
      ensures Latest(b.pre, assessments, pid, PRE) && Latest(b.post, assessments, pid, POST)
    {
      var pre: Option<int> := None;
      var post: Option<int> := None;
      var id := 1;
      while id < nextAssessment
        invariant 1 <= id <= nextAssessment
        invariant LatestBelow(pre, assessments, pid, PRE, id) && LatestBelow(post, assessments, pid, POST, id)
      {
        if Matches(assessments, id, pid, PRE) {
          pre := Some(id);
        } else if Matches(assessments, id, pid, POST) {
          post := Some(id);
        }
        id := id + 1;
      }
      b := Buckets(pre, post);
    }

    /** `get_ratings`: `{item_number: score}` for one assessment. */
    function RatingsOf(assessmentId: int): (r: map<int, int>)
      reads this
      ensures forall n :: n in r <==> (assessmentId, n) in ratings
      ensures forall n :: n in r ==> r[n] == ratings[(assessmentId, n)]
    {
      map k | k in ratings && k.0 == assessmentId :: k.1 := ratings[k]
    }

    /** `get_open_responses`: `{question_number: response_text}` for one assessment. */
    function ResponsesOf(assessmentId: int): (r: map<int, Option<string>>)
      reads this
      ensures forall n :: n in r <==> (assessmentId, n) in responses
      ensures forall n :: n in r ==> r[n] == responses[(assessmentId, n)]
    {
      map k | k in responses && k.0 == assessmentId :: k.1 := responses[k]
    }

    /** The stage reported for bucket `o`: present only when its assessment has a completion time. */
    function StageFor(o: Option<int>): Option<Stage>
      reads this
    {
      if o.Some? && o.value in assessments && Truthy(assessments[o.value].completedAt) then
        Some(Stage(o.value, assessments[o.value], RatingsOf(o.value), ResponsesOf(o.value)))
      else None
    }

    /**
     * `s` is what `get_participant_data` reports for `kind`: the last assessment of that kind
     * with its ratings and responses when it is completed, and None when there is no such
     * assessment or it is not completed.
     */
    ghost predicate StageReported(s: Option<Stage>, pid: int, kind: Kind)
      reads this
    {
      (s.Some? ==> Latest(Some(s.value.assessmentId), assessments, pid, kind) &&
                   s.value.assessment == assessments[s.value.assessmentId] &&
                   Truthy(s.value.assessment.completedAt) &&
                   s.value.ratings == RatingsOf(s.value.assessmentId) &&
                   s.value.openResponses == ResponsesOf(s.value.assessmentId)) &&
      (s.None? ==> forall id :: Latest(Some(id), assessments, pid, kind) ==> !Truthy(assessments[id].completedAt))
    }

    ghost predicate Reported(d: ParticipantData)
      reads this
    {
      d.participantId in participants && d.participant == participants[d.participantId] &&
      d.cohort == (if d.participant.cohortId in cohorts then Some(cohorts[d.participant.cohortId]) else None) &&
      StageReported(d.pre, d.participantId, PRE) && StageReported(d.post, d.participantId, POST)
    }

    /**
     * `get_participant_data`: None for an unknown participant; otherwise the participant, its
     * cohort (None if that is gone) and the PRE and POST stages, each filled only when completed.
     */
    method GetParticipantData(pid: int) returns (d: Option<ParticipantData>)
      requires Valid()
      ensures d.None? <==> pid !in participants
      ensures d.Some? ==> d.value.participantId == pid && Reported(d.value)
    {
      if pid !in participants {
        return None;
      }
      var p := participants[pid];
      var cohort := if p.cohortId in cohorts then Some(cohorts[p.cohortId]) else None;
      var b := GetAssessmentsForParticipant(pid);
      d := Some(ParticipantData(pid, p, cohort, StageFor(b.pre), StageFor(b.post)));
    }

    /**
     * `get_participants_for_cohort`, as the ids of the cohort's participants: each of them once,
     * in id order.
     */
    method ParticipantsForCohort(cid: int) returns (members: seq<int>)
      requires Valid()
      ensures forall k :: 0 <= k < |members| ==> members[k] in MembersOf(cid)
      ensures forall m :: m in MembersOf(cid) ==> m in members
      ensures forall j, k :: 0 <= j < k < |members| ==> members[j] < members[k]
      ensures |members| == |MembersOf(cid)|
    {
      members := [];
      var id := 1;
      while id < nextParticipant
        invariant 1 <= id <= nextParticipant
        invariant forall k :: 0 <= k < |members| ==> members[k] in MembersOf(cid) && members[k] < id
        invariant forall j, k :: 0 <= j < k < |members| ==> members[j] < members[k]
        invariant forall m :: m in MembersOf(cid) && m < id ==> m in members
      {
        if id in participants && participants[id].cohortId == cid {
          members := members + [id];
        }
        id := id + 1;
      }
      MembersAreTheSeq(members, MembersOf(cid));
    }

    /** `get_cohort_data`'s loop: each listed participant's data, and the two completion counters. */
    method CollectParticipantData(members: seq<int>) returns (list: seq<ParticipantData>, pre: nat, post: nat)
      requires Valid()
      requires forall k :: 0 <= k < |members| ==> members[k] in participants
      ensures |list| == |members|
      ensures forall k :: 0 <= k < |list| ==> list[k].participantId == members[k] && Reported(list[k])
      ensures pre == CountCompleted(list, PRE) && post == CountCompleted(list, POST)
    {
      list, pre, post := [], 0, 0;
      for k := 0 to |members|
        invariant |list| == k
        invariant forall j :: 0 <= j < k ==> list[j].participantId == members[j] && Reported(list[j])
        invariant pre == CountCompleted(list, PRE) && post == CountCompleted(list, POST)
      {
        var pd := GetParticipantData(members[k]);
        var d := pd.value;
        CountCompletedAppend(list, d);
        if d.pre.Some? {
          pre := pre + 1;
        }
        if d.post.Some? {
          post := post + 1;
        }
        ghost var before := list;
        list := list + [d];
        forall j | 0 <= j < k + 1
          ensures list[j].participantId == members[j] && Reported(list[j])
        {
          if j < k {
            assert list[j] == before[j];
          }
        }
      }
    }

    /**
     * `get_cohort_data`: None for an unknown cohort; otherwise the data of every participant of
     * the cohort, once each, with `total` their number and the two completion counters counting
     * those whose PRE or POST stage is reported, so neither exceeds `total`.
     */
    method GetCohortData(cid: int) returns (d: Option<CohortData>)
      requires Valid()
      ensures d.None? <==> cid !in cohorts
      ensures d.Some? ==> d.value.cohort == cohorts[cid]
      ensures d.Some? ==> d.value.total == |d.value.participants| == |MembersOf(cid)|
      ensures d.Some? ==> forall k :: 0 <= k < |d.value.participants| ==>
        d.value.participants[k].participantId in MembersOf(cid) && Reported(d.value.participants[k])
      ensures d.Some? ==> forall j, k :: 0 <= j < k < |d.value.participants| ==>
        d.value.participants[j].participantId < d.value.participants[k].participantId
      ensures d.Some? ==> d.value.preCompleted == CountCompleted(d.value.participants, PRE) <= d.value.total
      ensures d.Some? ==> d.value.postCompleted == CountCompleted(d.value.participants, POST) <= d.value.total
    {
      if cid !in cohorts {
        return None;
      }
      var members := ParticipantsForCohort(cid);
      var list, pre, post := CollectParticipantData(members);
      d := Some(CohortData(cohorts[cid], list, pre, post, |members|));
    }
  }

  /**
   * The upserts of one `save_all_*` transaction, in the dict's order, each checked against the
   * table's CHECK constraint `check`: the rows to commit, or None when a statement raised.
   */
  method RunUpserts<V>(t: map<Key, V>, assessmentId: int, entries: map<int, V>, check: V -> bool)
    returns (r: Option<map<Key, V>>)
    ensures AllPass(entries, check) ==> r == Some(t + Rows(assessmentId, entries, entries.Keys))
    ensures !AllPass(entries, check) ==> r.None?
  {
    var pending := t;
    var rest := entries.Keys;
    ghost var done: set<int> := {};
    while rest != {}
      invariant rest + done == entries.Keys && rest !! done
      invariant pending == t + Rows(assessmentId, entries, done)
      invariant forall n :: n in done ==> check(entries[n])
      decreases |rest|
    {
      SomeElement(rest);
      var n :| n in rest;
      if !check(entries[n]) {
        return None;
      }
      RowsStep(t, assessmentId, entries, done, n);
      pending := pending[(assessmentId, n) := entries[n]];
      rest := rest - {n};
      done := done + {n};
    }
    r := Some(pending);
  }

  /** Removing participant `p` after those in `done` is removing all of `done + {p}` at once. */
  lemma CascadeStep<V>(assessments: map<int, Assessment>, t: map<Key, V>, done: set<int>, p: int)
    ensures Without(Without(t, AssessmentsOf(assessments, done)), AssessmentsOf(NotOf(assessments, done), {p}))
         == Without(t, AssessmentsOf(assessments, done + {p}))
  {
    var before := AssessmentsOf(assessments, done);
    var added := AssessmentsOf(assessments, {p}) - before;
    NotOfTwice(assessments, done, {p});
    assert AssessmentsOf(assessments, done + {p}) == before + added;
    WithoutTwice(t, before, added);
  }

  /**
   * The cascade both deletes share: the ratings and responses of each assessment of `pid`
   * in turn, then those assessments.
   */
  method PurgeParticipant(assessments: map<int, Assessment>, ratings: map<Key, int>,
                          responses: map<Key, Option<string>>, pid: int)
    returns (a: map<int, Assessment>, r: map<Key, int>, o: map<Key, Option<string>>)
    ensures a == NotOf(assessments, {pid})
    ensures r == Without(ratings, AssessmentsOf(assessments, {pid}))
    ensures o == Without(responses, AssessmentsOf(assessments, {pid}))
  {
    var ids := AssessmentsOf(assessments, {pid});
    var todo := ids;
    ghost var done: set<int> := {};
    r, o := ratings, responses;
    NothingPurged(assessments, ratings);
    NothingPurged(assessments, responses);
    while todo != {}
      invariant todo + done == ids && todo !! done
      invariant r == Without(ratings, done) && o == Without(responses, done)
      decreases |todo|
    {
      SomeElement(todo);
      var x :| x in todo;
      WithoutTwice(ratings, done, {x});
      WithoutTwice(responses, done, {x});
      r := Without(r, {x});
      o := Without(o, {x});
      todo := todo - {x};
      done := done + {x};
    }
    a := NotOf(assessments, {pid});
  }

  /** `delete_cohort`'s loop: the cascade for each of the participants `ps` in turn. */
  method PurgeParticipants(assessments: map<int, Assessment>, ratings: map<Key, int>,
                           responses: map<Key, Option<string>>, ps: set<int>)
    returns (a: map<int, Assessment>, r: map<Key, int>, o: map<Key, Option<string>>)
    ensures a == NotOf(assessments, ps)
    ensures r == Without(ratings, AssessmentsOf(assessments, ps))
    ensures o == Without(responses, AssessmentsOf(assessments, ps))
  {
    var todo := ps;
    ghost var done: set<int> := {};
    a, r, o := assessments, ratings, responses;
    NothingPurged(assessments, ratings);
    NothingPurged(assessments, responses);
    while todo != {}
      invariant todo + done == ps && todo !! done
      invariant a == NotOf(assessments, done)
      invariant r == Without(ratings, AssessmentsOf(assessments, done))
      invariant o == Without(responses, AssessmentsOf(assessments, done))
      decreases |todo|
    {
      SomeElement(todo);
      var p :| p in todo;
      NotOfTwice(assessments, done, {p});
      CascadeStep(assessments, ratings, done, p);
      CascadeStep(assessments, responses, done, p);
      a, r, o := PurgeParticipant(a, r, o, p);
      todo := todo - {p};
      done := done + {p};
    }
  }

  /** Removing no participant changes no table. */
  lemma NothingPurged<V>(assessments: map<int, Assessment>, t: map<Key, V>)
    ensures NotOf(assessments, {}) == assessments
    ensures AssessmentsOf(assessments, {}) == {}
    ensures Without(t, {}) == t
  {
  }

  /** A non-empty set has an element to pick. */
  lemma SomeElement(s: set<int>)
    requires s != {}
    ensures exists x :: x in s
  {
    assert (forall x :: x !in s) ==> s == {};
  }

  /** A strictly increasing list holding exactly the elements of `s` has `|s|` entries. */
  lemma MembersAreTheSeq(list: seq<int>, s: set<int>)
    requires forall k :: 0 <= k < |list| ==> list[k] in s
    requires forall j, k :: 0 <= j < k < |list| ==> list[j] < list[k]
    requires forall m :: m in s ==> m in list
    ensures |list| == |s|
  {
    var elems := set k | 0 <= k < |list| :: list[k];
    forall m | m in s ensures m in elems {
      var k :| 0 <= k < |list| && list[k] == m;
    }
    assert elems == s;
    DistinctCount(list);
  }

  lemma {:induction false} DistinctCount(list: seq<int>)
    requires forall j, k :: 0 <= j < k < |list| ==> list[j] < list[k]
    ensures |set k | 0 <= k < |list| :: list[k]| == |list|
  {
    if list != [] {
      var init := list[..|list| - 1];
      DistinctCount(init);
      var a := set k | 0 <= k < |init| :: init[k];
      var b := set k | 0 <= k < |list| :: list[k];
      assert b == a + {list[|list| - 1]};
      assert list[|list| - 1] !in a;
    }
  }
}
