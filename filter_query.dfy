/**
 * The filter-query compiler of the lead listing (buildFilterQuery in
 * backend/routes/leads.js) and an evaluator saying which leads a compiled
 * query selects.
 *
 * A query is a map from record field to one condition; all conditions must
 * hold (an implicit AND). Filter values are modelled as `Operand`s; a property
 * read or a date conversion that has nothing to read yields `Undefined`, and
 * a comparison against `Undefined` or against an operand of another shape
 * selects nothing. Before the query runs, Mongoose casts each value against
 * its schema path: strings compared for equality or membership pass through
 * the path's setters, a single value given to `$in` is a one-element list, and
 * a list given for equality is a `$in`.
 */
module FilterQuery {
  import opened Wrappers
  import opened LeadSchema

  const MillisPerDay: int := 86400000
  /** 23:59:59.999 is this many milliseconds after the start of its day. */
  const LastMilliOfDay: int := 86399999

  /**
   * `date.setHours(0, 0, 0, 0)` for a server whose local time is `utcOffset`
   * milliseconds ahead of UTC: the local midnight at or before `t`.
   */
  function DayStart(t: Time, utcOffset: int): (s: Time)
    ensures s <= t < s + MillisPerDay
    ensures (s + utcOffset) % MillisPerDay == 0
  {
    t - (t + utcOffset) % MillisPerDay
  }

  datatype Operand =
    | Undefined
    | Text(text: string)
    | Texts(texts: seq<string>)
    | Number(number: real)
    | NumberBounds(min: real, max: real)
    | Instant(instant: Time)
    | InstantBounds(start: Time, end: Time)
    | Flag(flag: bool)
    | Owner(owner: UserId)

  /** One `{operator, value}` entry of the query string. */
  datatype Filter = Filter(operator: string, value: Operand)

  /** The entries buildFilterQuery looks at, named as the query-string keys. */
  datatype Filters = Filters(
    email: Option<Filter>,
    company: Option<Filter>,
    city: Option<Filter>,
    status: Option<Filter>,
    source: Option<Filter>,
    score: Option<Filter>,
    lead_value: Option<Filter>,
    is_qualified: Option<bool>,
    created_at: Option<Filter>,
    last_activity_at: Option<Filter>)

  /** The record fields a query constrains. */
  datatype Field =
    | User | Email | Company | City | Status | Source | Score | LeadValue
    | IsQualified | CreatedAt | LastActivityAt

  /** A condition on one field; `Regex` is always case-insensitive (`$options: 'i'`). */
  datatype Cond =
    | Exact(value: Operand)
    | InSet(values: Operand)
    | Gt(bound: Operand)
    | Lt(bound: Operand)
    | Range(low: Operand, high: Operand)
    | Regex(pattern: Operand)

  type Query = map<Field, Cond>

  /** A regular-expression engine: does `pattern`, matched case-insensitively, occur in `subject`. */
  type RegexOracle = (string, string) -> bool

  const TextOperators: set<string> := {"equals", "contains"}
  const EnumOperators: set<string> := {"equals", "in"}
  const NumberOperators: set<string> := {"equals", "gt", "lt", "between"}
  const DateOperators: set<string> := {"on", "before", "after", "between"}

  // ---------------------------------------------------------------------------
  // Reading operands the way the source reads filter values

  function MinOf(v: Operand): Operand {
    if v.NumberBounds? then Number(v.min) else Undefined
  }

  function MaxOf(v: Operand): Operand {
    if v.NumberBounds? then Number(v.max) else Undefined
  }

  function StartOf(v: Operand): Operand {
    if v.InstantBounds? then Instant(v.start) else Undefined
  }

  function EndOf(v: Operand): Operand {
    if v.InstantBounds? then Instant(v.end) else Undefined
  }

  /** `new Date(v)`: an instant, or an invalid date for anything else. */
  function AsDate(v: Operand): Operand {
    if v.Instant? then v else Undefined
  }

  function StartOfDay(v: Operand, utcOffset: int): Operand {
    if v.Instant? then Instant(DayStart(v.instant, utcOffset)) else Undefined
  }

  function EndOfDay(v: Operand, utcOffset: int): Operand {
    if v.Instant? then Instant(DayStart(v.instant, utcOffset) + LastMilliOfDay) else Undefined
  }

  // ---------------------------------------------------------------------------
  // The compiler

  /** email, company, city: `equals` is an exact match, `contains` a case-insensitive regex. */
  function TextCondition(filter: Option<Filter>): (c: Option<Cond>)
    ensures c.Some? <==> filter.Some? && filter.value.operator in TextOperators
  {
    match filter
    case None => None
    case Some(Filter(op, v)) =>
      if op == "equals" then Some(Exact(v))
      else if op == "contains" then Some(Regex(v))
      else None
  }

  /** status, source: `equals` is an exact match, `in` a set membership. */
  function EnumCondition(filter: Option<Filter>): (c: Option<Cond>)
    ensures c.Some? <==> filter.Some? && filter.value.operator in EnumOperators
  {
    match filter
    case None => None
    case Some(Filter(op, v)) =>
      if op == "equals" then Some(Exact(v))
      else if op == "in" then Some(InSet(v))
      else None
  }

  /** score, lead_value: strict `gt` and `lt`, inclusive `between` on `{min, max}`. */
  function NumberCondition(filter: Option<Filter>): (c: Option<Cond>)
    ensures c.Some? <==> filter.Some? && filter.value.operator in NumberOperators
  {
    match filter
    case None => None
    case Some(Filter(op, v)) =>
      if op == "equals" then Some(Exact(v))
      else if op == "gt" then Some(Gt(v))
      else if op == "lt" then Some(Lt(v))
      else if op == "between" then Some(Range(MinOf(v), MaxOf(v)))
      else None
  }

  /** created_at, last_activity_at: a whole local day for `on`, strict `before`/`after`, inclusive `between`. */
  function DateCondition(filter: Option<Filter>, utcOffset: int): (c: Option<Cond>)
    ensures c.Some? <==> filter.Some? && filter.value.operator in DateOperators
  {
    match filter
    case None => None
    case Some(Filter(op, v)) =>
      if op == "on" then Some(Range(StartOfDay(v, utcOffset), EndOfDay(v, utcOffset)))
      else if op == "before" then Some(Lt(AsDate(v)))
      else if op == "after" then Some(Gt(AsDate(v)))
      else if op == "between" then Some(Range(AsDate(StartOf(v)), AsDate(EndOf(v))))
      else None
  }

  const AllFields: set<Field> :=
    {User, Email, Company, City, Status, Source, Score, LeadValue, IsQualified, CreatedAt, LastActivityAt}

  /**
   * The condition buildFilterQuery assigns to one field: `user` is always the
   * caller; each other field gets the condition of the filter key renamed to it
   * (lead_value to leadValue, is_qualified to isQualified, created_at to
   * createdAt, last_activity_at to lastActivityAt), if that filter's branch
   * assigns one.
   */
  function ConditionFor(filters: Filters, userId: UserId, utcOffset: int, field: Field): Option<Cond> {
    match field
    case User => Some(Exact(Owner(userId)))
    case Email => TextCondition(filters.email)
    case Company => TextCondition(filters.company)
    case City => TextCondition(filters.city)
    case Status => EnumCondition(filters.status)
    case Source => EnumCondition(filters.source)
    case Score => NumberCondition(filters.score)
    case LeadValue => NumberCondition(filters.lead_value)
    case IsQualified => if filters.is_qualified.Some? then Some(Exact(Flag(filters.is_qualified.value))) else None
    case CreatedAt => DateCondition(filters.created_at, utcOffset)
    case LastActivityAt => DateCondition(filters.last_activity_at, utcOffset)
  }

  /**
   * buildFilterQuery: `{ user: userId }` plus, for every recognised filter key,
   * the condition its branch assigns. Each branch writes only its own field, so
   * the successive assignments of the source build exactly this map.
   */
  function BuildFilterQuery(filters: Filters, userId: UserId, utcOffset: int): (query: Query)
    ensures User in query && query[User] == Exact(Owner(userId))
    ensures Email in query <==> filters.email.Some? && filters.email.value.operator in TextOperators
    ensures Company in query <==> filters.company.Some? && filters.company.value.operator in TextOperators
    ensures City in query <==> filters.city.Some? && filters.city.value.operator in TextOperators
    ensures Status in query <==> filters.status.Some? && filters.status.value.operator in EnumOperators
    ensures Source in query <==> filters.source.Some? && filters.source.value.operator in EnumOperators
    ensures Score in query <==> filters.score.Some? && filters.score.value.operator in NumberOperators
    ensures LeadValue in query <==> filters.lead_value.Some? && filters.lead_value.value.operator in NumberOperators
    ensures IsQualified in query <==> filters.is_qualified.Some?
    ensures CreatedAt in query <==> filters.created_at.Some? && filters.created_at.value.operator in DateOperators
    ensures LastActivityAt in query <==>
      filters.last_activity_at.Some? && filters.last_activity_at.value.operator in DateOperators
  {
    var query := map f | f in AllFields && ConditionFor(filters, userId, utcOffset, f).Some? ::
      ConditionFor(filters, userId, utcOffset, f).value;
    assert forall f :: f in query <==> ConditionFor(filters, userId, utcOffset, f).Some?;
    query
  }

  // ---------------------------------------------------------------------------
  // The evaluator

  function OptionalText(s: Option<string>): Operand {
    if s.Some? then Text(s.value) else Undefined
  }

  function OptionalInstant(t: Option<Time>): Operand {
    if t.Some? then Instant(t.value) else Undefined
  }

  /** The value a lead holds in a field; `Undefined` when an optional path is unset. */
  function FieldValue(lead: Lead, field: Field): Operand {
    match field
    case User => Owner(lead.user)
    case Email => Text(lead.email)
    case Company => OptionalText(lead.company)
    case City => OptionalText(lead.city)
    case Status => Text(lead.status)
    case Source => Text(lead.source)
    case Score => Number(lead.score)
    case LeadValue => Number(lead.leadValue)
    case IsQualified => Flag(lead.isQualified)
    case CreatedAt => Instant(lead.createdAt)
    case LastActivityAt => OptionalInstant(lead.lastActivityAt)
  }

  /** Strict order between two numbers or two instants; nothing else is ordered. */
  predicate Less(a: Operand, b: Operand) {
    || (a.Number? && b.Number? && a.number < b.number)
    || (a.Instant? && b.Instant? && a.instant < b.instant)
  }

  predicate LessEq(a: Operand, b: Operand) {
    || (a.Number? && b.Number? && a.number <= b.number)
    || (a.Instant? && b.Instant? && a.instant <= b.instant)
  }

  /**
   * The setters a string compared against a path passes through: `email` is
   * lowercased and trimmed, `company` and `city` are trimmed, the other paths
   * have no setter.
   */
  function QueryCast(field: Field, s: string): string {
    match field
    case Email => NormalizeEmail(s)
    case Company => Trim(s)
    case City => Trim(s)
    case _ => s
  }

  function CastAll(field: Field, ts: seq<string>): (r: seq<string>)
    ensures |r| == |ts|
    ensures forall i :: 0 <= i < |ts| ==> r[i] == QueryCast(field, ts[i])
  {
    seq(|ts|, i requires 0 <= i < |ts| => QueryCast(field, ts[i]))
  }

  /** A filter value as Mongoose casts it against `field`: strings through the path's setters. */
  function CastOperand(field: Field, v: Operand): Operand {
    match v
    case Text(t) => Text(QueryCast(field, t))
    case Texts(ts) => Texts(CastAll(field, ts))
    case _ => v
  }

  /** A condition as Mongoose casts it against `field`; a `$regex` pattern is cast without the setters. */
  function CastCond(field: Field, c: Cond): Cond {
    match c
    case Exact(v) => Exact(CastOperand(field, v))
    case InSet(v) => InSet(CastOperand(field, v))
    case Gt(v) => Gt(CastOperand(field, v))
    case Lt(v) => Lt(CastOperand(field, v))
    case Range(lo, hi) => Range(CastOperand(field, lo), CastOperand(field, hi))
    case Regex(p) => c
  }

  /** `x` is one of the strings `v` names: `v` itself, or an element of the list `v`. */
  predicate OneOf(v: Operand, x: Operand) {
    x.Text? && ((v.Text? && x.text == v.text) || (v.Texts? && x.text in v.texts))
  }

  /** Whether a field value `x` satisfies a cast condition. */
  predicate Satisfies(c: Cond, x: Operand, regex: RegexOracle) {
    match c
    case Exact(v) => if v.Text? || v.Texts? then OneOf(v, x) else !v.Undefined? && x == v
    case InSet(v) => OneOf(v, x)
    case Gt(v) => Less(v, x)
    case Lt(v) => Less(x, v)
    case Range(lo, hi) => LessEq(lo, x) && LessEq(x, hi)
    case Regex(p) => p.Text? && x.Text? && regex(p.text, x.text)
  }

  /** A lead is selected when it satisfies every condition of the query, each cast against its path. */
  predicate Matches(query: Query, lead: Lead, regex: RegexOracle) {
    forall f :: f in query ==> Satisfies(CastCond(f, query[f]), FieldValue(lead, f), regex)
  }

  // ---------------------------------------------------------------------------
  // Reference semantics, each stated directly on the lead's fields

  /**
   * email, company, city (`field`). `actual` is the lead's value, None when unset.
   * `equals` names one string or a list of them, each compared after the
   * path's setters; a `contains` pattern is matched as given.
   */
  predicate TextFilterHolds(field: Field, filter: Option<Filter>, actual: Option<string>, regex: RegexOracle) {
    match filter
    case None => true
    case Some(Filter(op, v)) =>
      if op == "equals" then
        && actual.Some?
        && ((v.Text? && actual.value == QueryCast(field, v.text))
            || (v.Texts? && exists t :: t in v.texts && actual.value == QueryCast(field, t)))
      else if op == "contains" then v.Text? && actual.Some? && regex(v.text, actual.value)
      else true
  }

  /** status, source: `equals` and `in` alike accept one string or a list of them. */
  predicate EnumFilterHolds(filter: Option<Filter>, actual: string) {
    match filter
    case None => true
    case Some(Filter(op, v)) =>
      if op == "equals" || op == "in" then (v.Text? && actual == v.text) || (v.Texts? && actual in v.texts)
      else true
  }

  /** score, lead_value. */
  predicate NumberFilterHolds(filter: Option<Filter>, actual: real) {
    match filter
    case None => true
    case Some(Filter(op, v)) =>
      if op == "equals" then v.Number? && actual == v.number
      else if op == "gt" then v.Number? && actual > v.number
      else if op == "lt" then v.Number? && actual < v.number
      else if op == "between" then v.NumberBounds? && v.min <= actual <= v.max
      else true
  }

  /** created_at, last_activity_at. `actual` is None for a lead without that timestamp. */
  predicate DateFilterHolds(filter: Option<Filter>, actual: Option<Time>, utcOffset: int) {
    match filter
    case None => true
    case Some(Filter(op, v)) =>
      if op == "on" then
        v.Instant? && actual.Some? &&
        DayStart(v.instant, utcOffset) <= actual.value <= DayStart(v.instant, utcOffset) + LastMilliOfDay
      else if op == "before" then v.Instant? && actual.Some? && actual.value < v.instant
      else if op == "after" then v.Instant? && actual.Some? && actual.value > v.instant
      else if op == "between" then v.InstantBounds? && actual.Some? && v.start <= actual.value <= v.end
      else true
  }

  /** What the listing promises: the caller's own leads that pass every filter. */
  predicate Selected(filters: Filters, userId: UserId, utcOffset: int, lead: Lead, regex: RegexOracle) {
    && lead.user == userId
    && TextFilterHolds(Email, filters.email, Some(lead.email), regex)
    && TextFilterHolds(Company, filters.company, lead.company, regex)
    && TextFilterHolds(City, filters.city, lead.city, regex)
    && EnumFilterHolds(filters.status, lead.status)
    && EnumFilterHolds(filters.source, lead.source)
    && NumberFilterHolds(filters.score, lead.score)
    && NumberFilterHolds(filters.lead_value, lead.leadValue)
    && (filters.is_qualified.Some? ==> lead.isQualified == filters.is_qualified.value)
    && DateFilterHolds(filters.created_at, Some(lead.createdAt), utcOffset)
    && DateFilterHolds(filters.last_activity_at, lead.lastActivityAt, utcOffset)
  }

  // ---------------------------------------------------------------------------
  // Correctness of the compiler against the reference semantics

  /** A field's condition, if it has one, holds of value `x` once cast against the field. */
  predicate ConditionMet(field: Field, c: Option<Cond>, x: Operand, regex: RegexOracle) {
    c.Some? ==> Satisfies(CastCond(field, c.value), x, regex)
  }

  /** A string is in the cast list exactly when it is the cast of one of the list's strings. */
  lemma InCastAll(field: Field, ts: seq<string>, s: string)
    ensures s in CastAll(field, ts) <==> exists t :: t in ts && s == QueryCast(field, t)
  {
    var r := CastAll(field, ts);
    if s in r {
      var i :| 0 <= i < |r| && r[i] == s;
      assert ts[i] in ts;
    }
    if exists t :: t in ts && s == QueryCast(field, t) {
      var t :| t in ts && s == QueryCast(field, t);
      var i :| 0 <= i < |ts| && ts[i] == t;
      assert r[i] == s;
    }
  }

  /** Paths without a setter leave a list of strings as it is. */
  lemma CastAllWithoutSetter(field: Field, ts: seq<string>)
    requires field != Email && field != Company && field != City
    ensures CastAll(field, ts) == ts
  {
  }

  lemma TextConditionCorrect(field: Field, filter: Option<Filter>, actual: Option<string>, regex: RegexOracle)
    ensures ConditionMet(field, TextCondition(filter), OptionalText(actual), regex) <==>
      TextFilterHolds(field, filter, actual, regex)
  {
    if filter.Some? && filter.value.operator == "equals" && filter.value.value.Texts? && actual.Some? {
      InCastAll(field, filter.value.value.texts, actual.value);
    }
  }

  lemma EnumConditionCorrect(field: Field, filter: Option<Filter>, actual: string, regex: RegexOracle)
    requires field == Status || field == Source
    ensures ConditionMet(field, EnumCondition(filter), Text(actual), regex) <==> EnumFilterHolds(filter, actual)
  {
    if filter.Some? && filter.value.value.Texts? {
      CastAllWithoutSetter(field, filter.value.value.texts);
    }
  }

  lemma NumberConditionCorrect(field: Field, filter: Option<Filter>, actual: real, regex: RegexOracle)
    ensures ConditionMet(field, NumberCondition(filter), Number(actual), regex) <==> NumberFilterHolds(filter, actual)
  {
  }

  lemma DateConditionCorrect(field: Field, filter: Option<Filter>, actual: Option<Time>, utcOffset: int,
                             regex: RegexOracle)
    ensures ConditionMet(field, DateCondition(filter, utcOffset), OptionalInstant(actual), regex) <==>
      DateFilterHolds(filter, actual, utcOffset)
  {
  }

  /** A lead matches the compiled query exactly when every field's condition holds of it. */
  lemma MatchesByField(filters: Filters, userId: UserId, utcOffset: int, lead: Lead, regex: RegexOracle)
    ensures Matches(BuildFilterQuery(filters, userId, utcOffset), lead, regex) <==>
      forall f :: f in AllFields ==>
        ConditionMet(f, ConditionFor(filters, userId, utcOffset, f), FieldValue(lead, f), regex)
  {
  }

  /** The reference semantics of one field, as `Selected` spells it out. */
  predicate FieldHolds(filters: Filters, userId: UserId, utcOffset: int, lead: Lead, regex: RegexOracle, field: Field) {
    match field
    case User => lead.user == userId
    case Email => TextFilterHolds(Email, filters.email, Some(lead.email), regex)
    case Company => TextFilterHolds(Company, filters.company, lead.company, regex)
    case City => TextFilterHolds(City, filters.city, lead.city, regex)
    case Status => EnumFilterHolds(filters.status, lead.status)
    case Source => EnumFilterHolds(filters.source, lead.source)
    case Score => NumberFilterHolds(filters.score, lead.score)
    case LeadValue => NumberFilterHolds(filters.lead_value, lead.leadValue)
    case IsQualified => filters.is_qualified.Some? ==> lead.isQualified == filters.is_qualified.value
    case CreatedAt => DateFilterHolds(filters.created_at, Some(lead.createdAt), utcOffset)
    case LastActivityAt => DateFilterHolds(filters.last_activity_at, lead.lastActivityAt, utcOffset)
  }

  lemma FieldCorrect(filters: Filters, userId: UserId, utcOffset: int, lead: Lead, regex: RegexOracle, field: Field)
    ensures ConditionMet(field, ConditionFor(filters, userId, utcOffset, field), FieldValue(lead, field), regex) <==>
      FieldHolds(filters, userId, utcOffset, lead, regex, field)
  {
    match field
    case User =>
    case Email => TextConditionCorrect(Email, filters.email, Some(lead.email), regex);
    case Company => TextConditionCorrect(Company, filters.company, lead.company, regex);
    case City => TextConditionCorrect(City, filters.city, lead.city, regex);
    case Status => EnumConditionCorrect(Status, filters.status, lead.status, regex);
    case Source => EnumConditionCorrect(Source, filters.source, lead.source, regex);
    case Score => NumberConditionCorrect(Score, filters.score, lead.score, regex);
    case LeadValue => NumberConditionCorrect(LeadValue, filters.lead_value, lead.leadValue, regex);
    case IsQualified =>
    case CreatedAt => DateConditionCorrect(CreatedAt, filters.created_at, Some(lead.createdAt), utcOffset, regex);
    case LastActivityAt =>
      DateConditionCorrect(LastActivityAt, filters.last_activity_at, lead.lastActivityAt, utcOffset, regex);
  }

  lemma SelectedByField(filters: Filters, userId: UserId, utcOffset: int, lead: Lead, regex: RegexOracle)
    ensures Selected(filters, userId, utcOffset, lead, regex) <==>
      forall f :: f in AllFields ==> FieldHolds(filters, userId, utcOffset, lead, regex, f)
  {
  }

  /**
   * The compiled query selects a lead exactly when the lead is the caller's and
   * passes every filter under the reference semantics.
   */
  lemma BuildFilterQueryCorrect(filters: Filters, userId: UserId, utcOffset: int, lead: Lead, regex: RegexOracle)
    ensures Matches(BuildFilterQuery(filters, userId, utcOffset), lead, regex) <==>
      Selected(filters, userId, utcOffset, lead, regex)
  {
    MatchesByField(filters, userId, utcOffset, lead, regex);
    SelectedByField(filters, userId, utcOffset, lead, regex);
    forall f | f in AllFields
      ensures ConditionMet(f, ConditionFor(filters, userId, utcOffset, f), FieldValue(lead, f), regex) <==>
        FieldHolds(filters, userId, utcOffset, lead, regex, f)
    {
      FieldCorrect(filters, userId, utcOffset, lead, regex, f);
    }
  }

  /** Whatever the filters, every lead the query selects belongs to the caller. */
  lemma OnlyOwnLeadsMatch(filters: Filters, userId: UserId, utcOffset: int, lead: Lead, regex: RegexOracle)
    requires Matches(BuildFilterQuery(filters, userId, utcOffset), lead, regex)
    ensures lead.user == userId
  {
    var q := BuildFilterQuery(filters, userId, utcOffset);
    assert Satisfies(CastCond(User, q[User]), FieldValue(lead, User), regex);
  }

  /** A filter entry whose operator its field does not handle adds no condition. */
  lemma UnhandledOperatorIgnored(filters: Filters, userId: UserId, utcOffset: int, op: string)
    requires filters.score.Some? && filters.score.value.operator == op
    requires op !in {"equals", "gt", "lt", "between"}
    ensures BuildFilterQuery(filters, userId, utcOffset) ==
      BuildFilterQuery(filters.(score := None), userId, utcOffset)
  {
    var without := filters.(score := None);
    forall f | f in AllFields
      ensures ConditionFor(filters, userId, utcOffset, f) == ConditionFor(without, userId, utcOffset, f)
    {
      if f == Score {
        assert NumberCondition(filters.score) == None;
      }
    }
  }

  /** `between` on score is inclusive: both bounds are selected, values just outside are not. */
  lemma ScoreBetweenInclusive(userId: UserId, utcOffset: int, lo: real, hi: real, lead: Lead, regex: RegexOracle)
    requires lead.user == userId
    ensures var filters := Filters(None, None, None, None, None, Some(Filter("between", NumberBounds(lo, hi))),
                                   None, None, None, None);
      Matches(BuildFilterQuery(filters, userId, utcOffset), lead, regex) <==> lo <= lead.score <= hi
  {
    var filters := Filters(None, None, None, None, None, Some(Filter("between", NumberBounds(lo, hi))),
                           None, None, None, None);
    BuildFilterQueryCorrect(filters, userId, utcOffset, lead, regex);
  }

  /** `gt` on lead_value is strict and constrains the `leadValue` field. */
  lemma LeadValueGtStrict(userId: UserId, utcOffset: int, x: real, lead: Lead, regex: RegexOracle)
    requires lead.user == userId
    ensures var filters := Filters(None, None, None, None, None, None, Some(Filter("gt", Number(x))),
                                   None, None, None);
      Matches(BuildFilterQuery(filters, userId, utcOffset), lead, regex) <==> lead.leadValue > x
  {
    var filters := Filters(None, None, None, None, None, None, Some(Filter("gt", Number(x))),
                           None, None, None);
    BuildFilterQueryCorrect(filters, userId, utcOffset, lead, regex);
  }

  /**
   * `on` for created_at selects the whole local day of `t`: from its first
   * millisecond to its last one, and neither neighbouring millisecond.
   */
  lemma CreatedOnCoversDay(userId: UserId, utcOffset: int, t: Time, lead: Lead, regex: RegexOracle)
    requires lead.user == userId
    ensures var filters := Filters(None, None, None, None, None, None, None, None,
                                   Some(Filter("on", Instant(t))), None);
      var start := DayStart(t, utcOffset);
      && (Matches(BuildFilterQuery(filters, userId, utcOffset), lead, regex) <==>
          start <= lead.createdAt <= start + LastMilliOfDay)
      && start <= t <= start + LastMilliOfDay
  {
    var filters := Filters(None, None, None, None, None, None, None, None,
                           Some(Filter("on", Instant(t))), None);
    BuildFilterQueryCorrect(filters, userId, utcOffset, lead, regex);
  }

  /**
   * `email equals e` finds exactly the leads whose stored email is what the
   * setters make of `e`: case and surrounding whitespace of `e` do not matter.
   */
  lemma EmailEqualsFindsSubmitted(userId: UserId, utcOffset: int, e: string, lead: Lead, regex: RegexOracle)
    requires lead.user == userId
    ensures var filters := Filters(Some(Filter("equals", Text(e))), None, None, None, None, None, None, None,
                                   None, None);
      Matches(BuildFilterQuery(filters, userId, utcOffset), lead, regex) <==> lead.email == NormalizeEmail(e)
  {
    var filters := Filters(Some(Filter("equals", Text(e))), None, None, None, None, None, None, None, None, None);
    BuildFilterQueryCorrect(filters, userId, utcOffset, lead, regex);
  }

  /** `in` with a single status selects the leads with that status, as `equals` does. */
  lemma SingleStatusIn(userId: UserId, utcOffset: int, t: string, lead: Lead, regex: RegexOracle)
    requires lead.user == userId
    ensures var inOne := Filters(None, None, None, Some(Filter("in", Text(t))), None, None, None, None, None, None);
      var equalsOne := Filters(None, None, None, Some(Filter("equals", Text(t))), None, None, None, None, None, None);
      && (Matches(BuildFilterQuery(inOne, userId, utcOffset), lead, regex) <==> lead.status == t)
      && (Matches(BuildFilterQuery(equalsOne, userId, utcOffset), lead, regex) <==> lead.status == t)
  {
    var inOne := Filters(None, None, None, Some(Filter("in", Text(t))), None, None, None, None, None, None);
    var equalsOne := Filters(None, None, None, Some(Filter("equals", Text(t))), None, None, None, None, None, None);
    BuildFilterQueryCorrect(inOne, userId, utcOffset, lead, regex);
    BuildFilterQueryCorrect(equalsOne, userId, utcOffset, lead, regex);
  }

  /** For status and source, `equals` and `in` accept the same values. */
  lemma EnumEqualsIsIn(field: Field, v: Operand, actual: string, regex: RegexOracle)
    requires field == Status || field == Source
    ensures ConditionMet(field, EnumCondition(Some(Filter("equals", v))), Text(actual), regex) <==>
      ConditionMet(field, EnumCondition(Some(Filter("in", v))), Text(actual), regex)
  {
    EnumConditionCorrect(field, Some(Filter("equals", v)), actual, regex);
    EnumConditionCorrect(field, Some(Filter("in", v)), actual, regex);
  }
}
