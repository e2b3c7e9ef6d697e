/**
 * The owner-scoped lead handlers of backend/routes/leads.js (GET /, GET /:id,
 * POST /, PUT /:id, DELETE /:id) over the lead collection.
 *
 * Each handler's observable outcome is first given as a function of the
 * collection before the request (`GetOutcome`, `CreateStep`, `UpdateStep`,
 * `DeleteStep`); the `LeadCollection` class holds the collection and its
 * methods perform the handlers' steps in place, proved to agree with those
 * functions. The caller's id is the one the authentication middleware
 * established; the express-validator verdict arrives as `hasErrors`.
 */
module LeadStore {
  import opened Wrappers
  import opened LeadSchema
  import opened FilterQuery
  import opened Pagination

  /** A stored document: its `_id` and its fields. */
  datatype Doc = Doc(id: LeadId, lead: Lead)

  type Leads = map<LeadId, Lead>

  /**
   * The unique index the collection enforces on email: the one the schema
   * declares (`unique: true`, across all owners) or the per-owner one the
   * handlers' checks aim at.
   */
  datatype EmailIndex = GlobalEmailIndex | OwnerEmailIndex

  /** A handler's response: 200/201 with a document, 204, 404, 400 (duplicate email), 400 (validation), 500. */
  datatype Outcome = Ok(doc: Doc) | NoContent | NotFound | Duplicate | ValidationFailed | StoreFailure

  /** The body of GET /: `{ data, page, limit, total, totalPages }`, or a store error (500). */
  datatype Listing = Page(data: seq<Doc>, page: int, limit: int, total: nat, totalPages: int) | ListFailure

  /**
   * A POST body once express-validator has accepted it: names, email and source are
   * present (notEmpty, isEmail, isIn); the other fields may be missing.
   */
  datatype CreateBody = CreateBody(
    firstName: string,
    lastName: string,
    email: string,
    phone: Option<string>,
    company: Option<string>,
    city: Option<string>,
    state: Option<string>,
    source: string,
    status: Option<string>,
    score: Option<real>,
    leadValue: Option<real>,
    lastActivityAt: Option<Time>,
    isQualified: Option<bool>)

  /** A PUT body: any schema path, including the owner reference `user`, may be present. */
  datatype LeadPatch = LeadPatch(
    firstName: Option<string>,
    lastName: Option<string>,
    email: Option<string>,
    phone: Option<string>,
    company: Option<string>,
    city: Option<string>,
    state: Option<string>,
    source: Option<string>,
    status: Option<string>,
    score: Option<real>,
    leadValue: Option<real>,
    lastActivityAt: Option<Time>,
    isQualified: Option<bool>,
    user: Option<UserId>)

  /** A handler's outcome together with the collection it leaves behind. */
  datatype Step = Step(outcome: Outcome, leads: Leads)

  /**
   * What `findOneAndUpdate` does with a `user` path in a PUT body: the handler as
   * written passes the body on whole, so the path is applied; the intended rule
   * keeps the owner the document was created with.
   */
  datatype OwnerRule = BodyUserApplied | OwnerKept

  // ---------------------------------------------------------------------------
  // Route ids

  predicate IsHexDigit(c: char) {
    ('0' <= c <= '9') || ('a' <= c <= 'f') || ('A' <= c <= 'F')
  }

  /** 24 hexadecimal digits: the text form of an ObjectId. */
  predicate IsObjectIdText(s: string) {
    |s| == 24 && forall i :: 0 <= i < |s| ==> IsHexDigit(s[i])
  }

  /**
   * Mongoose's cast of the `:id` route parameter to the `_id` path: 24
   * hexadecimal digits, in either case, name the ObjectId whose text form is
   * their lowercase spelling; anything else raises a CastError, which the
   * handlers' catch blocks answer with 500.
   */
  function CastObjectId(raw: string): (r: Option<LeadId>)
    ensures r.Some? <==> IsObjectIdText(raw)
    ensures r.Some? ==> IsObjectIdText(r.value) && IsLowercase(r.value)
    ensures r.Some? ==> forall i :: 0 <= i < 24 ==> r.value[i] == LowerChar(raw[i])
  {
    if IsObjectIdText(raw) then Some(Lower(raw)) else None
  }

  /** The text form of an ObjectId casts to itself. */
  lemma CastObjectIdCanonical(id: LeadId)
    requires IsObjectIdText(id) && IsLowercase(id)
    ensures CastObjectId(id) == Some(id)
  {
    LowerOfLowercase(id);
  }

  /** Casting the result of a cast changes nothing. */
  lemma CastObjectIdIdempotent(raw: string)
    requires CastObjectId(raw).Some?
    ensures CastObjectId(CastObjectId(raw).value) == CastObjectId(raw)
  {
    CastObjectIdCanonical(CastObjectId(raw).value);
  }

  // ---------------------------------------------------------------------------
  // Lookups the handlers issue

  /** `findOne({ _id: id, user: userId })` finds a document. */
  predicate Owns(leads: Leads, userId: UserId, id: LeadId) {
    id in leads && leads[id].user == userId
  }

  /**
   * `findOne({ email, user: userId, _id: { $ne: except } })` finds a document.
   * `email` is the value after the email path's setters (`QueryCast(Email, ·)`),
   * as Mongoose casts it before the query runs.
   */
  predicate HasOwnedEmail(leads: Leads, userId: UserId, email: string, except: Option<LeadId>) {
    exists id :: id in leads && leads[id].user == userId && leads[id].email == email && except != Some(id)
  }

  /** The email index lets `lead` be written under `id`. */
  predicate IndexAdmits(index: EmailIndex, leads: Leads, id: LeadId, lead: Lead) {
    forall other :: other in leads && other != id && leads[other].email == lead.email ==>
      index == OwnerEmailIndex && leads[other].user != lead.user
  }

  ghost predicate IndexHolds(index: EmailIndex, leads: Leads) {
    match index
    case GlobalEmailIndex => EmailsUniqueGlobally(leads)
    case OwnerEmailIndex => EmailsUniquePerOwner(leads)
  }

  /** Every stored document passed the schema's validators, and the email index holds. */
  ghost predicate StoreInvariant(index: EmailIndex, leads: Leads) {
    (forall id :: id in leads ==> ValidLead(leads[id])) && IndexHolds(index, leads)
  }

  // ---------------------------------------------------------------------------
  // GET /:id

  function GetOutcome(leads: Leads, userId: UserId, rawId: string): (r: Outcome)
    ensures r.Ok? || r.NotFound? || r.StoreFailure?
    ensures r.StoreFailure? <==> CastObjectId(rawId).None?
    ensures r.Ok? <==> CastObjectId(rawId).Some? && Owns(leads, userId, CastObjectId(rawId).value)
    ensures r.Ok? ==> && Some(r.doc.id) == CastObjectId(rawId) && r.doc.id in leads
                      && r.doc.lead == leads[r.doc.id] && r.doc.lead.user == userId
  {
    match CastObjectId(rawId)
    case None => StoreFailure
    case Some(id) => if Owns(leads, userId, id) then Ok(Doc(id, leads[id])) else NotFound
  }

  // ---------------------------------------------------------------------------
  // POST /

  /** What the handler passes to `new Lead(...)`, with its own defaults filled in. */
  function CreateDraft(body: CreateBody, userId: UserId): LeadDraft {
    LeadDraft(
      Some(body.firstName), Some(body.lastName), Some(body.email),
      body.phone, body.company, body.city, body.state,
      Some(body.source),
      Some(body.status.GetOr(DefaultStatus)),
      Some(body.score.GetOr(DefaultScore)),
      Some(body.leadValue.GetOr(DefaultLeadValue)),
      body.lastActivityAt,
      Some(body.isQualified.GetOr(DefaultIsQualified)),
      Some(userId))
  }

  /**
   * POST /: validation verdict, per-owner duplicate check, then `save`, which
   * fails on a schema validator, on an `_id` already taken or on the email index.
   */
  function CreateStep(leads: Leads, index: EmailIndex, userId: UserId, body: CreateBody, hasErrors: bool,
                      newId: LeadId, now: Time): Step
  {
    if hasErrors then Step(ValidationFailed, leads)
    else if HasOwnedEmail(leads, userId, NormalizeEmail(body.email), None) then Step(Duplicate, leads)
    else
      match Instantiate(CreateDraft(body, userId), now)
      case None => Step(StoreFailure, leads)
      case Some(lead) =>
        if newId in leads || !IndexAdmits(index, leads, newId, lead) then Step(StoreFailure, leads)
        else Step(Ok(Doc(newId, lead)), leads[newId := lead])
  }

  // ---------------------------------------------------------------------------
  // PUT /:id

  function PatchText(current: string, update: Option<string>): string {
    if update.Some? then Trim(update.value) else current
  }

  function PatchOptionalText(current: Option<string>, update: Option<string>): Option<string> {
    if update.Some? then Some(Trim(update.value)) else current
  }

  /**
   * The owner after an update: under `BodyUserApplied` a body `user` that is an
   * ObjectId, in its text form; otherwise the current owner.
   */
  function AppliedOwner(rule: OwnerRule, current: UserId, update: Option<UserId>): (r: UserId)
    ensures rule == BodyUserApplied && update.Some? && IsObjectIdText(update.value) ==>
      r == CastObjectId(update.value).value
    ensures rule == OwnerKept || update.None? || !IsObjectIdText(update.value) ==> r == current
  {
    if rule == BodyUserApplied && update.Some? then CastObjectId(update.value).GetOr(current) else current
  }

  /**
   * The document `findOneAndUpdate` produces: every path the patch carries
   * replaces the stored one (through the trim and lowercase setters), the others
   * stay, `updatedAt` becomes `now`, and the owner follows `rule`.
   */
  function Patched(rule: OwnerRule, l: Lead, p: LeadPatch, now: Time): (r: Lead)
    ensures r.user == AppliedOwner(rule, l.user, p.user)
    ensures r.createdAt == l.createdAt && r.updatedAt == now
    ensures r.firstName == (if p.firstName.Some? then Trim(p.firstName.value) else l.firstName)
    ensures r.lastName == (if p.lastName.Some? then Trim(p.lastName.value) else l.lastName)
    ensures r.email == (if p.email.Some? then NormalizeEmail(p.email.value) else l.email)
    ensures r.phone == (if p.phone.Some? then Some(Trim(p.phone.value)) else l.phone)
    ensures r.company == (if p.company.Some? then Some(Trim(p.company.value)) else l.company)
    ensures r.city == (if p.city.Some? then Some(Trim(p.city.value)) else l.city)
    ensures r.state == (if p.state.Some? then Some(Trim(p.state.value)) else l.state)
    ensures r.source == (if p.source.Some? then p.source.value else l.source)
    ensures r.status == (if p.status.Some? then p.status.value else l.status)
    ensures r.score == (if p.score.Some? then p.score.value else l.score)
    ensures r.leadValue == (if p.leadValue.Some? then p.leadValue.value else l.leadValue)
    ensures r.lastActivityAt == (if p.lastActivityAt.Some? then p.lastActivityAt else l.lastActivityAt)
    ensures r.isQualified == (if p.isQualified.Some? then p.isQualified.value else l.isQualified)
  {
    l.(
      firstName := PatchText(l.firstName, p.firstName),
      lastName := PatchText(l.lastName, p.lastName),
      email := if p.email.Some? then NormalizeEmail(p.email.value) else l.email,
      phone := PatchOptionalText(l.phone, p.phone),
      company := PatchOptionalText(l.company, p.company),
      city := PatchOptionalText(l.city, p.city),
      state := PatchOptionalText(l.state, p.state),
      source := p.source.GetOr(l.source),
      status := p.status.GetOr(l.status),
      score := p.score.GetOr(l.score),
      leadValue := p.leadValue.GetOr(l.leadValue),
      lastActivityAt := if p.lastActivityAt.Some? then p.lastActivityAt else l.lastActivityAt,
      isQualified := p.isQualified.GetOr(l.isQualified),
      user := AppliedOwner(rule, l.user, p.user),
      updatedAt := now)
  }

  lemma PatchTextTwice(current: string, update: Option<string>)
    ensures PatchText(PatchText(current, update), update) == PatchText(current, update)
  {
    if update.Some? { TrimOfTrimmed(Trim(update.value)); }
  }

  lemma PatchOptionalTextTwice(current: Option<string>, update: Option<string>)
    ensures PatchOptionalText(PatchOptionalText(current, update), update) == PatchOptionalText(current, update)
  {
    if update.Some? { TrimOfTrimmed(Trim(update.value)); }
  }

  /** Applying the same patch a second time, at the same time, changes nothing more. */
  lemma PatchIdempotent(rule: OwnerRule, l: Lead, p: LeadPatch, now: Time)
    ensures Patched(rule, Patched(rule, l, p, now), p, now) == Patched(rule, l, p, now)
  {
    var once := Patched(rule, l, p, now);
    var twice := Patched(rule, once, p, now);
    PatchTextTwice(l.firstName, p.firstName);
    PatchTextTwice(l.lastName, p.lastName);
    if p.email.Some? { NormalizeEmailIdempotent(p.email.value); }
    PatchOptionalTextTwice(l.phone, p.phone);
    PatchOptionalTextTwice(l.company, p.company);
    PatchOptionalTextTwice(l.city, p.city);
    PatchOptionalTextTwice(l.state, p.state);
    assert twice.firstName == once.firstName && twice.lastName == once.lastName && twice.email == once.email;
    assert twice.phone == once.phone && twice.company == once.company;
    assert twice.city == once.city && twice.state == once.state;
  }

  /**
   * Under `BodyUserApplied`, the body's `user` reaches the ObjectId path `user`
   * and is cast there; a value that is not an ObjectId raises a CastError.
   */
  predicate OwnerCastFails(rule: OwnerRule, p: LeadPatch) {
    rule == BodyUserApplied && p.user.Some? && !IsObjectIdText(p.user.value)
  }

  /** `updateData.email && updateData.email !== existingLead.email`. */
  predicate EmailChanges(p: LeadPatch, existing: Lead) {
    p.email.Some? && p.email.value != "" && p.email.value != existing.email
  }

  /**
   * PUT /:id: validation verdict, the cast of the id, ownership lookup, the
   * email check when the email changes, then `findOneAndUpdate` with
   * `runValidators`, which fails on the cast of the update, on a schema
   * validator or on the email index.
   */
  function UpdateStep(leads: Leads, index: EmailIndex, rule: OwnerRule, userId: UserId, rawId: string,
                      patch: LeadPatch, hasErrors: bool, now: Time): Step
  {
    if hasErrors then Step(ValidationFailed, leads)
    else
      match CastObjectId(rawId)
      case None => Step(StoreFailure, leads)
      case Some(id) =>
        if !Owns(leads, userId, id) then Step(NotFound, leads)
        else if EmailChanges(patch, leads[id]) && HasOwnedEmail(leads, userId, NormalizeEmail(patch.email.value), Some(id))
        then Step(Duplicate, leads)
        else if OwnerCastFails(rule, patch) then Step(StoreFailure, leads)
        else
          var updated := Patched(rule, leads[id], patch, now);
          if !ValidLead(updated) || !IndexAdmits(index, leads, id, updated) then Step(StoreFailure, leads)
          else Step(Ok(Doc(id, updated)), leads[id := updated])
  }

  // ---------------------------------------------------------------------------
  // DELETE /:id

  function DeleteStep(leads: Leads, userId: UserId, rawId: string): Step {
    match CastObjectId(rawId)
    case None => Step(StoreFailure, leads)
    case Some(id) => if Owns(leads, userId, id) then Step(NoContent, leads - {id}) else Step(NotFound, leads)
  }

  // ---------------------------------------------------------------------------
  // GET /

  function CreatedAtOf(d: Doc): int {
    d.lead.createdAt
  }

  function IdsOf(docs: seq<Doc>): set<LeadId> {
    set k | 0 <= k < |docs| :: docs[k].id
  }

  lemma IdsOfAppend(docs: seq<Doc>, d: Doc)
    ensures IdsOf(docs + [d]) == IdsOf(docs) + {d.id}
  {
    var e := docs + [d];
    forall id | id in IdsOf(e) ensures id in IdsOf(docs) + {d.id} {
      var k :| 0 <= k < |e| && e[k].id == id;
      if k < |docs| {
        assert e[k] == docs[k];
      }
    }
    forall id | id in IdsOf(docs) ensures id in IdsOf(e) {
      var k :| 0 <= k < |docs| && docs[k].id == id;
      assert e[k] == docs[k];
    }
    assert e[|docs|] == d;
  }

  /** The ids of the documents a query selects. */
  function MatchingIds(leads: Leads, query: Query, regex: RegexOracle): set<LeadId> {
    set id | id in leads && Matches(query, leads[id], regex)
  }

  /** Every document of `docs` is stored as it is and selected by `query`. */
  predicate AllStoredAndMatching(docs: seq<Doc>, leads: Leads, query: Query, regex: RegexOracle) {
    forall k :: 0 <= k < |docs| ==>
      docs[k].id in leads && leads[docs[k].id] == docs[k].lead && Matches(query, docs[k].lead, regex)
  }

  /** The ids among `seen` whose documents the query selects. */
  function MatchingAmong(leads: Leads, query: Query, regex: RegexOracle, seen: set<LeadId>): set<LeadId> {
    set id | id in seen && id in leads && Matches(query, leads[id], regex)
  }

  /** `docs` lists each selected document among `seen` exactly once. */
  predicate ScannedSoFar(docs: seq<Doc>, leads: Leads, query: Query, regex: RegexOracle, seen: set<LeadId>) {
    && AllStoredAndMatching(docs, leads, query, regex)
    && IdsOf(docs) == MatchingAmong(leads, query, regex, seen)
    && |docs| == |IdsOf(docs)|
  }

  /** Looking at one more stored id keeps `ScannedSoFar`. */
  lemma ScanStep(docs: seq<Doc>, leads: Leads, query: Query, regex: RegexOracle, seen: set<LeadId>, id: LeadId)
    requires id in leads && id !in seen
    requires ScannedSoFar(docs, leads, query, regex, seen)
    ensures var next := if Matches(query, leads[id], regex) then docs + [Doc(id, leads[id])] else docs;
      ScannedSoFar(next, leads, query, regex, seen + {id})
  {
    if Matches(query, leads[id], regex) {
      IdsOfAppend(docs, Doc(id, leads[id]));
      AppendStoredAndMatching(docs, leads, query, regex, id);
      assert MatchingAmong(leads, query, regex, seen + {id}) == MatchingAmong(leads, query, regex, seen) + {id};
    } else {
      assert MatchingAmong(leads, query, regex, seen + {id}) == MatchingAmong(leads, query, regex, seen);
    }
  }

  lemma AppendStoredAndMatching(docs: seq<Doc>, leads: Leads, query: Query, regex: RegexOracle, id: LeadId)
    requires AllStoredAndMatching(docs, leads, query, regex)
    requires id in leads && Matches(query, leads[id], regex)
    ensures AllStoredAndMatching(docs + [Doc(id, leads[id])], leads, query, regex)
  {
    var next := docs + [Doc(id, leads[id])];
    forall k | 0 <= k < |next|
      ensures next[k].id in leads && leads[next[k].id] == next[k].lead && Matches(query, next[k].lead, regex)
    {
      if k < |docs| {
        assert next[k] == docs[k];
      }
    }
  }

  /** `docs` lists each document the query selects exactly once. */
  predicate Enumerates(docs: seq<Doc>, leads: Leads, query: Query, regex: RegexOracle) {
    && AllStoredAndMatching(docs, leads, query, regex)
    && IdsOf(docs) == MatchingIds(leads, query, regex)
    && |docs| == |IdsOf(docs)|
  }

  lemma {:induction false} PermutationEnumerates(a: seq<Doc>, b: seq<Doc>, leads: Leads, query: Query, regex: RegexOracle)
    requires Enumerates(a, leads, query, regex)
    requires multiset(a) == multiset(b)
    ensures Enumerates(b, leads, query, regex)
  {
    assert |a| == |b| by {
      assert |multiset(a)| == |multiset(b)|;
    }
    forall k | 0 <= k < |b|
      ensures b[k].id in leads && leads[b[k].id] == b[k].lead && Matches(query, b[k].lead, regex)
    {
      assert b[k] in multiset(a);
      var j :| 0 <= j < |a| && a[j] == b[k];
    }
    forall id | id in IdsOf(a) ensures id in IdsOf(b) {
      var j :| 0 <= j < |a| && a[j].id == id;
      assert a[j] in multiset(b);
      var k :| 0 <= k < |b| && b[k] == a[j];
    }
    forall id | id in IdsOf(b) ensures id in IdsOf(a) {
      var k :| 0 <= k < |b| && b[k].id == id;
      assert b[k] in multiset(a);
      var j :| 0 <= j < |a| && a[j] == b[k];
    }
  }

  /** Every document of a window of selected documents is stored as it is, the caller's and passes the filters. */
  lemma WindowOfSelected(docs: seq<Doc>, leads: Leads, filters: Filters, userId: UserId, utcOffset: int,
                         regex: RegexOracle, skip: nat, take: nat)
    requires AllStoredAndMatching(docs, leads, BuildFilterQuery(filters, userId, utcOffset), regex)
    ensures var data := Window(docs, skip, take);
      forall k :: 0 <= k < |data| ==>
        data[k].id in leads && leads[data[k].id] == data[k].lead
        && Selected(filters, userId, utcOffset, data[k].lead, regex)
  {
    var data := Window(docs, skip, take);
    forall k | 0 <= k < |data|
      ensures data[k].id in leads && leads[data[k].id] == data[k].lead
        && Selected(filters, userId, utcOffset, data[k].lead, regex)
    {
      assert data[k] == docs[skip + k];
      BuildFilterQueryCorrect(filters, userId, utcOffset, data[k].lead, regex);
    }
  }

  // ---------------------------------------------------------------------------
  // The collection

  class LeadCollection {
    var leads: Leads
    const emailIndex: EmailIndex
    const ownerRule: OwnerRule

    ghost predicate Valid()
      reads this
    {
      StoreInvariant(emailIndex, leads)
    }

    constructor (emailIndex: EmailIndex, ownerRule: OwnerRule)
      ensures Valid() && this.emailIndex == emailIndex && this.ownerRule == ownerRule && leads == map[]
    {
      this.emailIndex := emailIndex;
      this.ownerRule := ownerRule;
      leads := map[];
    }

    /** GET /:id */
    method Get(userId: UserId, rawId: string) returns (r: Outcome)
      ensures r == GetOutcome(leads, userId, rawId)
    {
      var cast := CastObjectId(rawId);
      if cast.None? {
        return StoreFailure;
      }
      var id := cast.value;
      if id in leads && leads[id].user == userId {
        r := Ok(Doc(id, leads[id]));
      } else {
        r := NotFound;
      }
    }

    /** POST / */
    method Create(userId: UserId, body: CreateBody, hasErrors: bool, newId: LeadId, now: Time) returns (r: Outcome)
      requires Valid()
      modifies this
      ensures Valid()
      ensures Step(r, leads) == CreateStep(old(leads), emailIndex, userId, body, hasErrors, newId, now)
    {
      if hasErrors {
        return ValidationFailed;
      }
      if HasOwnedEmail(leads, userId, NormalizeEmail(body.email), None) {
        return Duplicate;
      }
      var candidate := Instantiate(CreateDraft(body, userId), now);
      if candidate.None? {
        return StoreFailure;
      }
      var lead := candidate.value;
      if newId in leads || !IndexAdmits(emailIndex, leads, newId, lead) {
        return StoreFailure;
      }
      CreatePreservesInvariant(leads, emailIndex, userId, body, hasErrors, newId, now);
      leads := leads[newId := lead];
      r := Ok(Doc(newId, lead));
    }

    /** PUT /:id */
    method Update(userId: UserId, rawId: string, patch: LeadPatch, hasErrors: bool, now: Time) returns (r: Outcome)
      requires Valid()
      modifies this
      ensures Valid()
      ensures Step(r, leads) == UpdateStep(old(leads), emailIndex, ownerRule, userId, rawId, patch, hasErrors, now)
    {
      if hasErrors {
        return ValidationFailed;
      }
      var cast := CastObjectId(rawId);
      if cast.None? {
        return StoreFailure;
      }
      var id := cast.value;
      if !Owns(leads, userId, id) {
        return NotFound;
      }
      var existing := leads[id];
      if EmailChanges(patch, existing) && HasOwnedEmail(leads, userId, NormalizeEmail(patch.email.value), Some(id)) {
        return Duplicate;
      }
      if OwnerCastFails(ownerRule, patch) {
        return StoreFailure;
      }
      var updated := Patched(ownerRule, existing, patch, now);
      if !ValidLead(updated) || !IndexAdmits(emailIndex, leads, id, updated) {
        return StoreFailure;
      }
      UpdatePreservesInvariant(leads, emailIndex, ownerRule, userId, rawId, patch, hasErrors, now);
      leads := leads[id := updated];
      r := Ok(Doc(id, updated));
    }

    /** DELETE /:id */
    method Delete(userId: UserId, rawId: string) returns (r: Outcome)
      requires Valid()
      modifies this
      ensures Valid()
      ensures Step(r, leads) == DeleteStep(old(leads), userId, rawId)
    {
      var cast := CastObjectId(rawId);
      if cast.None? {
        return StoreFailure;
      }
      var id := cast.value;
      if id in leads && leads[id].user == userId {
        DeletePreservesInvariant(leads, emailIndex, userId, rawId);
        leads := leads - {id};
        r := NoContent;
      } else {
        r := NotFound;
      }
    }

    /** The documents `find(query)` and `countDocuments(query)` range over. */
    method Scan(query: Query, regex: RegexOracle) returns (found: seq<Doc>)
      ensures Enumerates(found, leads, query, regex)
    {
      var remaining := leads.Keys;
      found := [];
      assert MatchingAmong(leads, query, regex, leads.Keys - remaining) == {};
      while remaining != {}
        invariant remaining <= leads.Keys
        invariant ScannedSoFar(found, leads, query, regex, leads.Keys - remaining)
        decreases |remaining|
      {
        var id :| id in remaining;
        ScanStep(found, leads, query, regex, leads.Keys - remaining, id);
        if Matches(query, leads[id], regex) {
          found := found + [Doc(id, leads[id])];
        }
        assert leads.Keys - (remaining - {id}) == (leads.Keys - remaining) + {id};
        remaining := remaining - {id};
      }
      assert leads.Keys - remaining == leads.Keys;
      assert MatchingAmong(leads, query, regex, leads.Keys) == MatchingIds(leads, query, regex);
    }

    /**
     * GET /: page and limit defaulting, the filter query, the total count, and
     * the newest-first page of the selected documents.
     */
    method List(userId: UserId, filters: Filters, pageParam: Option<int>, limitParam: Option<int>,
                utcOffset: int, regex: RegexOracle) returns (r: Listing)
      ensures var page := PageNumber(pageParam);
        var limit := PageSize(limitParam);
        var skip := Skip(page, limit);
        var query := BuildFilterQuery(filters, userId, utcOffset);
        && (r.ListFailure? <==> skip < 0)
        && (r.Page? ==>
          && r.page == page && r.limit == limit
          && r.total == |MatchingIds(leads, query, regex)|
          && r.totalPages == TotalPages(r.total, limit)
          && (forall k :: 0 <= k < |r.data| ==>
                r.data[k].id in leads && leads[r.data[k].id] == r.data[k].lead
                && Selected(filters, userId, utcOffset, r.data[k].lead, regex))
          && exists all :: Enumerates(all, leads, query, regex) && NewestFirst(all, CreatedAtOf)
                        && r.data == Window(all, skip, if limit < 0 then -limit else limit))
    {
      var page := PageNumber(pageParam);
      var limit := PageSize(limitParam);
      var skip := Skip(page, limit);
      var query := BuildFilterQuery(filters, userId, utcOffset);
      var found := Scan(query, regex);
      var total := |found|;
      if skip < 0 {
        return ListFailure;
      }
      var sorted := SortNewestFirst(found, CreatedAtOf);
      PermutationEnumerates(found, sorted, leads, query, regex);
      var take := if limit < 0 then -limit else limit;
      var data := Window(sorted, skip, take);
      WindowOfSelected(sorted, leads, filters, userId, utcOffset, regex, skip, take);
      assert Enumerates(sorted, leads, query, regex) && NewestFirst(sorted, CreatedAtOf) && data == Window(sorted, skip, take);
      r := Page(data, page, limit, total, TotalPages(total, limit));
    }
  }

  // ---------------------------------------------------------------------------
  // Invariants the handlers keep

  lemma CreatePreservesInvariant(leads: Leads, index: EmailIndex, userId: UserId, body: CreateBody,
                                 hasErrors: bool, newId: LeadId, now: Time)
    requires StoreInvariant(index, leads)
    ensures StoreInvariant(index, CreateStep(leads, index, userId, body, hasErrors, newId, now).leads)
  {
    var s := CreateStep(leads, index, userId, body, hasErrors, newId, now);
    if hasErrors || HasOwnedEmail(leads, userId, NormalizeEmail(body.email), None) {
      assert s.leads == leads;
    } else {
      var candidate := Instantiate(CreateDraft(body, userId), now);
      if candidate.None? || newId in leads || !IndexAdmits(index, leads, newId, candidate.value) {
        assert s.leads == leads;
      } else {
        assert s.leads == leads[newId := candidate.value];
        InsertKeepsIndex(index, leads, newId, candidate.value);
      }
    }
  }

  lemma UpdatePreservesInvariant(leads: Leads, index: EmailIndex, rule: OwnerRule, userId: UserId, rawId: string,
                                 patch: LeadPatch, hasErrors: bool, now: Time)
    requires StoreInvariant(index, leads)
    ensures StoreInvariant(index, UpdateStep(leads, index, rule, userId, rawId, patch, hasErrors, now).leads)
  {
    var s := UpdateStep(leads, index, rule, userId, rawId, patch, hasErrors, now);
    if hasErrors || CastObjectId(rawId).None? {
      assert s.leads == leads;
      return;
    }
    var id := CastObjectId(rawId).value;
    if !Owns(leads, userId, id) {
      assert s.leads == leads;
    } else if EmailChanges(patch, leads[id]) && HasOwnedEmail(leads, userId, NormalizeEmail(patch.email.value), Some(id)) {
      assert s.leads == leads;
    } else if OwnerCastFails(rule, patch) {
      assert s.leads == leads;
    } else {
      var updated := Patched(rule, leads[id], patch, now);
      if !ValidLead(updated) || !IndexAdmits(index, leads, id, updated) {
        assert s.leads == leads;
      } else {
        assert s.leads == leads[id := updated];
        InsertKeepsIndex(index, leads, id, updated);
      }
    }
  }

  lemma DeletePreservesInvariant(leads: Leads, index: EmailIndex, userId: UserId, rawId: string)
    requires StoreInvariant(index, leads)
    ensures StoreInvariant(index, DeleteStep(leads, userId, rawId).leads)
  {
  }

  /** Writing a valid document the index admits keeps the invariant. */
  lemma InsertKeepsIndex(index: EmailIndex, leads: Leads, id: LeadId, lead: Lead)
    requires StoreInvariant(index, leads)
    requires ValidLead(lead) && IndexAdmits(index, leads, id, lead)
    ensures StoreInvariant(index, leads[id := lead])
  {
    var m := leads[id := lead];
    match index
    case GlobalEmailIndex =>
      forall i, j | i in m && j in m && i != j ensures m[i].email != m[j].email {
        if i == id {
          assert m[j] == leads[j];
        } else if j == id {
          assert m[i] == leads[i];
        } else {
          assert m[i] == leads[i] && m[j] == leads[j];
        }
      }
    case OwnerEmailIndex =>
      forall i, j | i in m && j in m && i != j && m[i].user == m[j].user ensures m[i].email != m[j].email {
        if i == id {
          assert m[j] == leads[j];
        } else if j == id {
          assert m[i] == leads[i];
        } else {
          assert m[i] == leads[i] && m[j] == leads[j];
        }
      }
  }

  // ---------------------------------------------------------------------------
  // Properties of the handlers

  /** Create answers Duplicate exactly when the caller already holds a lead with that (normalised) email. */
  lemma CreateDuplicateIff(leads: Leads, index: EmailIndex, userId: UserId, body: CreateBody,
                           hasErrors: bool, newId: LeadId, now: Time)
    ensures var s := CreateStep(leads, index, userId, body, hasErrors, newId, now);
      (s.outcome == Duplicate <==> !hasErrors && HasOwnedEmail(leads, userId, NormalizeEmail(body.email), None))
      && (!s.outcome.Ok? ==> s.leads == leads)
  {
    if !hasErrors && !HasOwnedEmail(leads, userId, NormalizeEmail(body.email), None) {
      var candidate := Instantiate(CreateDraft(body, userId), now);
      var s := CreateStep(leads, index, userId, body, hasErrors, newId, now);
      if candidate.Some? && newId !in leads && IndexAdmits(index, leads, newId, candidate.value) {
        assert s.outcome == Ok(Doc(newId, candidate.value));
      } else {
        assert s == Step(StoreFailure, leads);
      }
    }
  }

  /** A successful create adds exactly one document, owned by the caller, with the handler's defaults. */
  lemma CreateAddsOne(leads: Leads, index: EmailIndex, userId: UserId, body: CreateBody,
                      hasErrors: bool, newId: LeadId, now: Time)
    requires CreateStep(leads, index, userId, body, hasErrors, newId, now).outcome.Ok?
    ensures var s := CreateStep(leads, index, userId, body, hasErrors, newId, now);
      var lead := s.outcome.doc.lead;
      && s.outcome.doc.id == newId && newId !in leads
      && s.leads == leads[newId := lead] && |s.leads| == |leads| + 1
      && lead.user == userId && ValidLead(lead)
      && lead.email == NormalizeEmail(body.email)
      && lead.source == body.source
      && (body.status.None? ==> lead.status == "new")
      && (body.score.None? ==> lead.score == 0.0)
      && (body.leadValue.None? ==> lead.leadValue == 0.0)
      && (body.isQualified.None? ==> !lead.isQualified)
      && (body.lastActivityAt.None? ==> lead.lastActivityAt.None?)
      && lead.createdAt == now
  {
    var candidate := Instantiate(CreateDraft(body, userId), now);
    assert !hasErrors && candidate.Some?;
    assert CreateStep(leads, index, userId, body, hasErrors, newId, now).outcome.doc.lead == candidate.value;
  }

  /**
   * Under a per-owner email index a valid create whose email the caller does not
   * hold yet succeeds, whatever leads other owners hold with that email.
   */
  lemma CreateSucceedsUnderOwnerIndex(leads: Leads, userId: UserId, body: CreateBody, newId: LeadId, now: Time)
    requires StoreInvariant(OwnerEmailIndex, leads)
    requires !HasOwnedEmail(leads, userId, NormalizeEmail(body.email), None)
    requires Instantiate(CreateDraft(body, userId), now).Some? && newId !in leads
    ensures CreateStep(leads, OwnerEmailIndex, userId, body, false, newId, now).outcome.Ok?
  {
    var lead := Instantiate(CreateDraft(body, userId), now).value;
    assert lead.email == NormalizeEmail(body.email) && lead.user == userId;
    OwnerIndexAdmitsNewEmail(leads, newId, lead);
  }

  /** Under a per-owner index, an email its owner does not hold yet can be written. */
  lemma OwnerIndexAdmitsNewEmail(leads: Leads, id: LeadId, lead: Lead)
    requires !HasOwnedEmail(leads, lead.user, lead.email, None)
    ensures IndexAdmits(OwnerEmailIndex, leads, id, lead)
  {
  }

  /**
   * The schema as written declares a global unique index on email: a create
   * whose email another owner already uses passes the handler's check and
   * then fails in `save` (HTTP 500).
   */
  lemma CrossOwnerEmailFailsUnderGlobalIndex(leads: Leads, userId: UserId, body: CreateBody, newId: LeadId,
                                             now: Time, other: LeadId)
    requires other in leads && leads[other].user != userId && leads[other].email == NormalizeEmail(body.email)
    requires !HasOwnedEmail(leads, userId, NormalizeEmail(body.email), None)
    requires Instantiate(CreateDraft(body, userId), now).Some?
    ensures CreateStep(leads, GlobalEmailIndex, userId, body, false, newId, now).outcome == StoreFailure
  {
    var lead := Instantiate(CreateDraft(body, userId), now).value;
    assert lead.email == NormalizeEmail(body.email);
    if newId !in leads {
      assert other != newId;
      assert !IndexAdmits(GlobalEmailIndex, leads, newId, lead);
    }
  }

  /**
   * A route id that is not an ObjectId makes get, update and delete answer 500,
   * once validation has passed, and changes nothing.
   */
  lemma MalformedIdIsStoreFailure(leads: Leads, index: EmailIndex, rule: OwnerRule, userId: UserId, rawId: string,
                                  patch: LeadPatch, now: Time)
    requires !IsObjectIdText(rawId)
    ensures GetOutcome(leads, userId, rawId) == StoreFailure
    ensures UpdateStep(leads, index, rule, userId, rawId, patch, false, now) == Step(StoreFailure, leads)
    ensures DeleteStep(leads, userId, rawId) == Step(StoreFailure, leads)
  {
  }

  /**
   * For an id that is an ObjectId, get, update and delete answer NotFound exactly
   * when no document of the caller has it, and change nothing then.
   */
  lemma NotYoursIsNotFound(leads: Leads, index: EmailIndex, rule: OwnerRule, userId: UserId, rawId: string,
                           id: LeadId, patch: LeadPatch, now: Time)
    requires CastObjectId(rawId) == Some(id)
    ensures (UpdateStep(leads, index, rule, userId, rawId, patch, false, now).outcome == NotFound) <==>
      !Owns(leads, userId, id)
    ensures (DeleteStep(leads, userId, rawId).outcome == NotFound) <==> !Owns(leads, userId, id)
    ensures (GetOutcome(leads, userId, rawId) == NotFound) <==> !Owns(leads, userId, id)
    ensures !Owns(leads, userId, id) ==>
      && UpdateStep(leads, index, rule, userId, rawId, patch, false, now).leads == leads
      && DeleteStep(leads, userId, rawId).leads == leads
  {
  }

  /** A lead created under an id in its text form is found under that id by its owner. */
  lemma CreatedLeadIsFound(leads: Leads, index: EmailIndex, userId: UserId, body: CreateBody, hasErrors: bool,
                           newId: LeadId, now: Time)
    requires IsObjectIdText(newId) && IsLowercase(newId)
    requires CreateStep(leads, index, userId, body, hasErrors, newId, now).outcome.Ok?
    ensures var s := CreateStep(leads, index, userId, body, hasErrors, newId, now);
      GetOutcome(s.leads, userId, newId) == s.outcome
  {
    CastObjectIdCanonical(newId);
  }

  /** Once deleted, a lead is no longer found. */
  lemma DeletedLeadIsGone(leads: Leads, userId: UserId, rawId: string)
    requires DeleteStep(leads, userId, rawId).outcome == NoContent
    ensures GetOutcome(DeleteStep(leads, userId, rawId).leads, userId, rawId) == NotFound
  {
  }

  /**
   * Update answers Duplicate exactly when the id names one of the caller's leads
   * and the body carries a new, non-empty email that another of the caller's
   * leads already has.
   */
  lemma UpdateDuplicateIff(leads: Leads, index: EmailIndex, rule: OwnerRule, userId: UserId, rawId: string,
                           patch: LeadPatch, hasErrors: bool, now: Time)
    ensures var s := UpdateStep(leads, index, rule, userId, rawId, patch, hasErrors, now);
      var cast := CastObjectId(rawId);
      (s.outcome == Duplicate <==>
        && !hasErrors && cast.Some? && Owns(leads, userId, cast.value) && EmailChanges(patch, leads[cast.value])
        && HasOwnedEmail(leads, userId, NormalizeEmail(patch.email.value), cast))
      && (s.outcome == Duplicate ==> s.leads == leads)
  {
  }

  /** Resubmitting a lead's current email is never a duplicate. */
  lemma UnchangedEmailNotDuplicate(leads: Leads, index: EmailIndex, rule: OwnerRule, userId: UserId, rawId: string,
                                   id: LeadId, patch: LeadPatch, hasErrors: bool, now: Time)
    requires CastObjectId(rawId) == Some(id) && id in leads && patch.email == Some(leads[id].email)
    ensures UpdateStep(leads, index, rule, userId, rawId, patch, hasErrors, now).outcome != Duplicate
  {
  }

  /** A PUT body that carries no path. */
  const EmptyPatch: LeadPatch :=
    LeadPatch(None, None, None, None, None, None, None, None, None, None, None, None, None, None)

  /** Resubmitting only a lead's current email is accepted and leaves the document's fields as they were. */
  lemma UnchangedEmailSucceeds(leads: Leads, index: EmailIndex, rule: OwnerRule, userId: UserId, rawId: string,
                               id: LeadId, now: Time)
    requires StoreInvariant(index, leads) && CastObjectId(rawId) == Some(id) && Owns(leads, userId, id)
    ensures var s := UpdateStep(leads, index, rule, userId, rawId, EmptyPatch.(email := Some(leads[id].email)),
                                false, now);
      s.outcome == Ok(Doc(id, leads[id].(updatedAt := now)))
  {
    var existing := leads[id];
    var patch := EmptyPatch.(email := Some(existing.email));
    LowerOfLowercase(existing.email);
    TrimOfTrimmed(existing.email);
    var updated := Patched(rule, existing, patch, now);
    assert updated == existing.(updatedAt := now);
    forall other | other in leads && other != id && leads[other].email == updated.email
      ensures index == OwnerEmailIndex && leads[other].user != updated.user
    {
      assert leads[other].email == leads[id].email;
    }
  }

  /**
   * A successful update rewrites only the document the id names: it keeps
   * `createdAt`, passes the validators, and its owner is the caller unless the
   * rule applies a `user` of the body, which is then that ObjectId.
   */
  lemma UpdateChangesOnlyTarget(leads: Leads, index: EmailIndex, rule: OwnerRule, userId: UserId, rawId: string,
                                patch: LeadPatch, hasErrors: bool, now: Time)
    requires UpdateStep(leads, index, rule, userId, rawId, patch, hasErrors, now).outcome.Ok?
    ensures var s := UpdateStep(leads, index, rule, userId, rawId, patch, hasErrors, now);
      var id := s.outcome.doc.id;
      && CastObjectId(rawId) == Some(id) && Owns(leads, userId, id)
      && s.leads.Keys == leads.Keys
      && (forall other :: other in leads && other != id ==> s.leads[other] == leads[other])
      && s.outcome.doc == Doc(id, s.leads[id])
      && s.leads[id].user ==
         (if rule == BodyUserApplied && patch.user.Some? then CastObjectId(patch.user.value).value else userId)
      && s.leads[id].createdAt == leads[id].createdAt
      && ValidLead(s.leads[id])
  {
  }

  /**
   * As written, PUT applies a `user` field of the body: a body carrying only
   * another account's id is accepted, and the lead leaves the caller's scope for
   * that account's.
   */
  lemma AsWrittenUpdateReassignsOwner(leads: Leads, userId: UserId, rawId: string, id: LeadId, other: UserId,
                                      now: Time)
    requires StoreInvariant(GlobalEmailIndex, leads)
    requires CastObjectId(rawId) == Some(id) && Owns(leads, userId, id) && other != userId
    requires IsObjectIdText(other) && IsLowercase(other)
    ensures var s := UpdateStep(leads, GlobalEmailIndex, BodyUserApplied, userId, rawId,
                                EmptyPatch.(user := Some(other)), false, now);
      s.outcome.Ok? && !Owns(s.leads, userId, id) && Owns(s.leads, other, id)
  {
    CastObjectIdCanonical(other);
    var existing := leads[id];
    var updated := Patched(BodyUserApplied, existing, EmptyPatch.(user := Some(other)), now);
    assert updated == existing.(user := other, updatedAt := now);
    GlobalIndexAdmitsSameEmail(leads, id, updated);
  }

  /** The global index lets a document be rewritten with the email it already has. */
  lemma GlobalIndexAdmitsSameEmail(leads: Leads, id: LeadId, lead: Lead)
    requires EmailsUniqueGlobally(leads) && id in leads && lead.email == leads[id].email
    ensures IndexAdmits(GlobalEmailIndex, leads, id, lead)
  {
  }

  /**
   * As written, a body `user` that is not an ObjectId makes the update fail
   * (the CastError answers 500), and nothing changes.
   */
  lemma MalformedBodyUserFails(leads: Leads, index: EmailIndex, userId: UserId, rawId: string, patch: LeadPatch,
                               hasErrors: bool, now: Time)
    requires patch.user.Some? && !IsObjectIdText(patch.user.value)
    ensures var s := UpdateStep(leads, index, BodyUserApplied, userId, rawId, patch, hasErrors, now);
      && (s.outcome == StoreFailure || s.outcome == ValidationFailed || s.outcome == NotFound
          || s.outcome == Duplicate)
      && s.leads == leads
  {
  }

  /** With the owner kept, no update, whatever its body, changes who owns any lead. */
  lemma UpdateKeepsOwnership(leads: Leads, index: EmailIndex, userId: UserId, rawId: string, patch: LeadPatch,
                             hasErrors: bool, now: Time)
    ensures var s := UpdateStep(leads, index, OwnerKept, userId, rawId, patch, hasErrors, now);
      forall u, lid :: Owns(s.leads, u, lid) <==> Owns(leads, u, lid)
  {
  }

  /** A delete removes exactly the targeted owned document. */
  lemma DeleteRemovesOnlyTarget(leads: Leads, userId: UserId, rawId: string, id: LeadId)
    requires CastObjectId(rawId) == Some(id) && Owns(leads, userId, id)
    ensures var s := DeleteStep(leads, userId, rawId);
      && s.outcome == NoContent
      && s.leads.Keys == leads.Keys - {id}
      && (forall other :: other in s.leads ==> s.leads[other] == leads[other])
      && |s.leads| == |leads| - 1
  {
  }
}
