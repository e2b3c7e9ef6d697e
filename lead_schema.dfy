/**
 * The Lead document schema (backend/models/Lead.js): the shape of a stored lead,
 * the string setters Mongoose applies (trim, lowercase), the defaults it fills in,
 * and the validators (required, enum, min/max) a document must pass to be saved.
 */
module LeadSchema {
  import opened Wrappers

  /** Identifier of the owning account (a User ObjectId). */
  type UserId = string
  /** Identifier of a lead document (its `_id`). */
  type LeadId = string
  /** A point in time, in milliseconds since the epoch. */
  type Time = int

  const Sources: set<string> := {"website", "facebook_ads", "google_ads", "referral", "events", "other"}
  const Statuses: set<string> := {"new", "contacted", "qualified", "lost", "won"}
  const DefaultSource: string := "website"
  const DefaultStatus: string := "new"
  const MinScore: real := 0.0
  const MaxScore: real := 100.0
  const MinLeadValue: real := 0.0
  const DefaultScore: real := 0.0
  const DefaultLeadValue: real := 0.0
  const DefaultIsQualified: bool := false

  /** A lead as stored in the collection. The timestamps are managed by the schema's `timestamps` option. */
  datatype Lead = Lead(
    firstName: string,
    lastName: string,
    email: string,
    phone: Option<string>,
    company: Option<string>,
    city: Option<string>,
    state: Option<string>,
    source: string,
    status: string,
    score: real,
    leadValue: real,
    lastActivityAt: Option<Time>,
    isQualified: bool,
    user: UserId,
    createdAt: Time,
    updatedAt: Time)

  /** The object handed to `new Lead({...})`: any path may be missing. */
  datatype LeadDraft = LeadDraft(
    firstName: Option<string>,
    lastName: Option<string>,
    email: Option<string>,
    phone: Option<string>,
    company: Option<string>,
    city: Option<string>,
    state: Option<string>,
    source: Option<string>,
    status: Option<string>,
    score: Option<real>,
    leadValue: Option<real>,
    lastActivityAt: Option<Time>,
    isQualified: Option<bool>,
    user: Option<UserId>)

  // ---------------------------------------------------------------------------
  // String setters: `trim: true` and `lowercase: true`

  /** The characters JavaScript's String.prototype.trim removes (WhiteSpace and LineTerminator). */
  predicate IsSpace(c: char) {
    || c == ' ' || c == '\t' || c == '\n' || c == '\r' || c == '\U{000B}' || c == '\U{000C}'
    || c == '\U{00A0}' || c == '\U{1680}' || ('\U{2000}' <= c <= '\U{200A}')
    || c == '\U{2028}' || c == '\U{2029}' || c == '\U{202F}' || c == '\U{205F}'
    || c == '\U{3000}' || c == '\U{FEFF}'
  }

  predicate IsUpper(c: char) {
    'A' <= c <= 'Z'
  }

  function LowerChar(c: char): (r: char)
    ensures !IsUpper(r)
    ensures IsSpace(r) == IsSpace(c)
    ensures !IsUpper(c) ==> r == c
  {
    if IsUpper(c) then (c as int - 'A' as int + 'a' as int) as char else c
  }

  /** No leading and no trailing whitespace. */
  predicate IsTrimmed(s: string) {
    s == [] || (!IsSpace(s[0]) && !IsSpace(s[|s| - 1]))
  }

  predicate IsLowercase(s: string) {
    forall i :: 0 <= i < |s| ==> !IsUpper(s[i])
  }

  /** The first position at or after `i` that does not hold whitespace (`|s|` if none). */
  function FirstKept(s: string, i: nat): (k: nat)
    requires i <= |s|
    ensures i <= k <= |s|
    ensures forall m :: i <= m < k ==> IsSpace(s[m])
    ensures k < |s| ==> !IsSpace(s[k])
    decreases |s| - i
  {
    if i < |s| && IsSpace(s[i]) then FirstKept(s, i + 1) else i
  }

  /** The position just after the last character before `j` that is not whitespace (0 if none). */
  function LastKept(s: string, j: nat): (k: nat)
    requires j <= |s|
    ensures k <= j
    ensures forall m :: k <= m < j ==> IsSpace(s[m])
    ensures k > 0 ==> !IsSpace(s[k - 1])
  {
    if j > 0 && IsSpace(s[j - 1]) then LastKept(s, j - 1) else j
  }

  /** `String.prototype.trim`: the part of `s` between its leading and its trailing whitespace. */
  function Trim(s: string): (r: string)
    ensures IsTrimmed(r) && |r| <= |s|
  {
    var i := FirstKept(s, 0);
    var j := LastKept(s, |s|);
    if j <= i then [] else s[i..j]
  }

  /** Nothing but whitespace is cut off: `Trim(s)` is `s[i..j]`, all before `i` and all from `j` on being whitespace. */
  lemma TrimIsSlice(s: string)
    ensures var i := FirstKept(s, 0);
      var j := i + |Trim(s)|;
      && j <= |s| && Trim(s) == s[i..j]
      && (forall k :: 0 <= k < i ==> IsSpace(s[k]))
      && (forall k :: j <= k < |s| ==> IsSpace(s[k]))
  {
  }

  /** `Lowercase: true`, for ASCII letters. */
  function Lower(s: string): (r: string)
    ensures |r| == |s|
    ensures forall i :: 0 <= i < |s| ==> r[i] == LowerChar(s[i])
  {
    seq(|s|, i requires 0 <= i < |s| => LowerChar(s[i]))
  }

  /** What the `email` path stores: lowercased, then trimmed. */
  function NormalizeEmail(s: string): string {
    Trim(Lower(s))
  }

  lemma LowerOfLowercase(s: string)
    requires IsLowercase(s)
    ensures Lower(s) == s
  {
  }

  lemma TrimOfTrimmed(s: string)
    requires IsTrimmed(s)
    ensures Trim(s) == s
  {
    if s != [] {
      assert FirstKept(s, 0) == 0;
      assert LastKept(s, |s|) == |s|;
      assert s[0..|s|] == s;
    }
  }

  /** The stored email is lowercase and carries no surrounding whitespace. */
  lemma NormalizedEmailShape(s: string)
    ensures IsLowercase(NormalizeEmail(s)) && IsTrimmed(NormalizeEmail(s))
  {
    var l := Lower(s);
    TrimIsSlice(l);
    var i := FirstKept(l, 0);
    forall k | 0 <= k < |Trim(l)| ensures !IsUpper(Trim(l)[k]) {
      assert Trim(l)[k] == l[i + k];
    }
  }

  /** Applying the email setters to a stored email changes nothing. */
  lemma NormalizeEmailIdempotent(s: string)
    ensures NormalizeEmail(NormalizeEmail(s)) == NormalizeEmail(s)
  {
    var n := NormalizeEmail(s);
    NormalizedEmailShape(s);
    LowerOfLowercase(n);
    TrimOfTrimmed(n);
  }

  /** Lowercasing keeps every whitespace position, so the leading whitespace ends at the same place. */
  lemma {:induction false} FirstKeptOfLower(s: string, i: nat)
    requires i <= |s|
    ensures FirstKept(Lower(s), i) == FirstKept(s, i)
    decreases |s| - i
  {
    if i < |s| && IsSpace(s[i]) {
      FirstKeptOfLower(s, i + 1);
    }
  }

  /** Lowercasing keeps every whitespace position, so the trailing whitespace starts at the same place. */
  lemma {:induction false} LastKeptOfLower(s: string, j: nat)
    requires j <= |s|
    ensures LastKept(Lower(s), j) == LastKept(s, j)
  {
    if j > 0 && IsSpace(s[j - 1]) {
      LastKeptOfLower(s, j - 1);
    }
  }

  /** Lowercasing a slice gives the slice of the lowercased string. */
  lemma LowerOfSlice(s: string, i: nat, j: nat)
    requires i <= j <= |s|
    ensures Lower(s)[i..j] == Lower(s[i..j])
  {
    var a := Lower(s)[i..j];
    var b := Lower(s[i..j]);
    forall k | 0 <= k < |a| ensures a[k] == b[k] {
      assert a[k] == LowerChar(s[i + k]);
    }
  }

  /** Lowercasing and trimming commute, so the order in which the two setters run does not matter. */
  lemma SettersCommute(s: string)
    ensures NormalizeEmail(s) == Lower(Trim(s))
  {
    var l := Lower(s);
    FirstKeptOfLower(s, 0);
    LastKeptOfLower(s, |s|);
    var i := FirstKept(s, 0);
    var j := LastKept(s, |s|);
    assert Trim(l) == if j <= i then [] else l[i..j];
    assert Trim(s) == if j <= i then [] else s[i..j];
    if i < j {
      LowerOfSlice(s, i, j);
    }
  }

  // ---------------------------------------------------------------------------
  // Validators

  predicate ValidSource(s: string) {
    s in Sources
  }

  predicate ValidStatus(s: string) {
    s in Statuses
  }

  /** A `trim: true` optional string path holds a trimmed value when present. */
  predicate TrimmedWhenPresent(s: Option<string>) {
    s.Some? ==> IsTrimmed(s.value)
  }

  /**
   * A lead every validator of the schema accepts: the required strings are present
   * and non-empty (Mongoose's `required` refuses ""), the setters' effects hold,
   * the enums and the numeric ranges are respected.
   */
  predicate ValidLead(l: Lead) {
    && l.firstName != [] && IsTrimmed(l.firstName)
    && l.lastName != [] && IsTrimmed(l.lastName)
    && l.email != [] && IsTrimmed(l.email) && IsLowercase(l.email)
    && TrimmedWhenPresent(l.phone) && TrimmedWhenPresent(l.company)
    && TrimmedWhenPresent(l.city) && TrimmedWhenPresent(l.state)
    && ValidSource(l.source)
    && ValidStatus(l.status)
    && MinScore <= l.score <= MaxScore
    && MinLeadValue <= l.leadValue
  }

  /** The paths that are required and have no default. */
  predicate HasRequiredPaths(d: LeadDraft) {
    d.firstName.Some? && d.lastName.Some? && d.email.Some? && d.user.Some?
  }

  function TrimOption(s: Option<string>): (r: Option<string>)
    ensures r.Some? == s.Some?
    ensures s.Some? ==> r.value == Trim(s.value)
    ensures TrimmedWhenPresent(r)
  {
    if s.Some? then Some(Trim(s.value)) else None
  }

  /**
   * The document Mongoose builds from a draft: defaults fill the missing `source`,
   * `status`, `score`, `leadValue` and `isQualified`; the string setters run; the
   * creation and update timestamps are both `now`.
   */
  function Materialize(d: LeadDraft, now: Time): (l: Lead)
    requires HasRequiredPaths(d)
    ensures l.user == d.user.value && l.createdAt == now && l.updatedAt == now
    ensures l.firstName == Trim(d.firstName.value) && l.lastName == Trim(d.lastName.value)
    ensures l.email == NormalizeEmail(d.email.value)
    ensures l.phone == TrimOption(d.phone) && l.company == TrimOption(d.company)
    ensures l.city == TrimOption(d.city) && l.state == TrimOption(d.state)
    ensures l.source == (if d.source.Some? then d.source.value else DefaultSource)
    ensures l.status == (if d.status.Some? then d.status.value else DefaultStatus)
    ensures l.score == (if d.score.Some? then d.score.value else DefaultScore)
    ensures l.leadValue == (if d.leadValue.Some? then d.leadValue.value else DefaultLeadValue)
    ensures l.isQualified == (if d.isQualified.Some? then d.isQualified.value else DefaultIsQualified)
    ensures l.lastActivityAt == d.lastActivityAt
  {
    Lead(
      Trim(d.firstName.value), Trim(d.lastName.value), NormalizeEmail(d.email.value),
      TrimOption(d.phone), TrimOption(d.company), TrimOption(d.city), TrimOption(d.state),
      d.source.GetOr(DefaultSource), d.status.GetOr(DefaultStatus),
      d.score.GetOr(DefaultScore), d.leadValue.GetOr(DefaultLeadValue),
      d.lastActivityAt, d.isQualified.GetOr(DefaultIsQualified),
      d.user.value, now, now)
  }

  /**
   * `new Lead(draft)` followed by validation: the document, or None when a
   * validator refuses it (a Mongoose ValidationError).
   */
  function Instantiate(d: LeadDraft, now: Time): (r: Option<Lead>)
    ensures r.Some? ==> ValidLead(r.value)
    ensures !HasRequiredPaths(d) ==> r.None?
    ensures HasRequiredPaths(d) ==> (r.Some? <==> ValidLead(Materialize(d, now)))
    ensures r.Some? ==> r.value == Materialize(d, now)
  {
    if HasRequiredPaths(d) && ValidLead(Materialize(d, now)) then Some(Materialize(d, now)) else None
  }

  /** A draft that leaves every defaulted path out receives the schema defaults. */
  lemma DefaultsFilled(d: LeadDraft, now: Time)
    requires Instantiate(d, now).Some?
    requires d.source.None? && d.status.None? && d.score.None? && d.leadValue.None? && d.isQualified.None?
    ensures var l := Instantiate(d, now).value;
      l.source == "website" && l.status == "new" && l.score == 0.0 && l.leadValue == 0.0 && !l.isQualified
  {
  }

  /** A first name made only of whitespace is trimmed to "" and then refused by `required`. */
  lemma BlankFirstNameRefused(d: LeadDraft, now: Time)
    requires HasRequiredPaths(d)
    requires forall k :: 0 <= k < |d.firstName.value| ==> IsSpace(d.firstName.value[k])
    ensures Instantiate(d, now).None?
  {
  }

  // ---------------------------------------------------------------------------
  // Email uniqueness

  /** What the schema's `unique: true` index on `email` enforces: no two documents share an email. */
  ghost predicate EmailsUniqueGlobally(leads: map<LeadId, Lead>) {
    forall i, j :: i in leads && j in leads && i != j ==> leads[i].email != leads[j].email
  }

  /** What the create and update handlers check: no two documents of one owner share an email. */
  ghost predicate EmailsUniquePerOwner(leads: map<LeadId, Lead>) {
    forall i, j :: i in leads && j in leads && i != j && leads[i].user == leads[j].user ==>
      leads[i].email != leads[j].email
  }

  lemma GlobalUniquenessImpliesPerOwner(leads: map<LeadId, Lead>)
    requires EmailsUniqueGlobally(leads)
    ensures EmailsUniquePerOwner(leads)
  {
  }

  /** The two constraints differ: two owners may each hold a lead with the same email. */
  lemma PerOwnerUniquenessIsWeaker(a: Lead, b: Lead)
    requires a.email == b.email && a.user != b.user
    ensures var leads := map["1" := a, "2" := b];
      EmailsUniquePerOwner(leads) && !EmailsUniqueGlobally(leads)
  {
    var leads := map["1" := a, "2" := b];
    assert leads["1"].email == leads["2"].email;
  }
}
