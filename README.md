# Lead management: a verified model of the lead routes and the Lead schema

This project models the core of a multi-tenant lead-tracking service in Dafny.
Each account owns its leads and can only see or change those.
The model covers:

- the Lead schema (`backend/models/Lead.js`):
  - the stored fields;
  - the `trim` and `lowercase` setters;
  - the defaults;
  - the validators (required, enum, min/max);
  - the unique index on email;
- `buildFilterQuery` (`backend/routes/leads.js`), which compiles the listing's per-field filters into one store query, plus an evaluator saying which leads a compiled query selects;
- the listing's pagination: page and limit defaults, `skip`, `totalPages`, newest-first ordering and the page window;
- the five owner-scoped handlers: list, get, create, update and delete.

Files:

| file | module | contents |
|---|---|---|
| `wrappers.dfy` | `Wrappers` | `Option`, which stands for a field or parameter that is absent (`undefined`) |
| `lead_schema.dfy` | `LeadSchema` | `Lead` and `LeadDraft`; the string setters; `ValidLead`; `Materialize`/`Instantiate` (what `new Lead(...)` plus validation produces); both email-uniqueness predicates |
| `filter_query.dfy` | `FilterQuery` | filter operands and conditions; `BuildFilterQuery`; Mongoose's cast of query values (`CastCond`); the evaluator `Matches`; the per-field reference semantics `Selected`; the proof that the two agree |
| `pagination.dfy` | `Pagination` | `PageNumber`, `PageSize`, `Skip`, `TotalPages`, `SortNewestFirst`, `Window` |
| `lead_store.dfy` | `LeadStore` | the cast of route ids (`CastObjectId`); the handlers as step functions (`GetOutcome`, `CreateStep`, `UpdateStep`, `DeleteStep`), with the email index and the owner rule as parameters; the class `LeadCollection`, whose `leads: map<LeadId, Lead>` field the methods update in place; the invariant lemmas |

How the handlers are modelled:

- Get, create, update and delete are each given twice, and the two are proved to agree:
  - as a function from the collection before the request to an `Outcome` and the collection after it;
  - as a method of `LeadCollection` that performs the steps in place.
- The listing (GET /) is the method `LeadCollection.List`, specified directly by its postcondition; it collects the matching documents with the loop `LeadCollection.Scan`.
- The `:id` route parameter arrives as a string and is cast to an ObjectId (`CastObjectId`); a string that is not one answers 500, as Mongoose's CastError does.
- The HTTP outcomes are:
  - `Ok` (200/201 with the document);
  - `NoContent` (204);
  - `NotFound` (404);
  - `Duplicate` (400, "Lead with this email already exists");
  - `ValidationFailed` (400 from express-validator);
  - `StoreFailure` (500).
- The class keeps an invariant, `StoreInvariant`:
  - every stored document passes the schema's validators;
  - the email index holds.

Parameters the model takes in place of the environment:

- **Caller.** The caller's account id (`userId`) is the one the authentication middleware established.
- **Validation.** express-validator's verdict arrives as the boolean `hasErrors`.
- **New documents.** The new document's `_id` is `newId`, and the clock reading is `now`, in milliseconds.
- **Server time zone.** The local time of the server is a fixed offset `utcOffset` from UTC.
- **Regular expressions.** The regular-expression engine is a function parameter, `RegexOracle`.

In two places the code does something its own surroundings show was not meant. The model carries both behaviours, chosen by a parameter of `LeadCollection`:

- **Email index** (`EmailIndex`). The schema's `unique: true` on `email` (Lead.js:17) builds one index across all owners. Everything around it aims at uniqueness per owner: the create and update handlers look for the email only among the caller's leads (leads.js:248-252, 321-325), and the compound `{ user, email }` index (Lead.js:77) is not unique. `GlobalEmailIndex` is the code; `OwnerEmailIndex` is the per-owner rule.
- **Owner on update** (`OwnerRule`). PUT passes the whole body to `findOneAndUpdate` (leads.js:307, 337-341), so a `user` field in it is applied. Everywhere else the owner comes only from the caller's token: create sets it from there (leads.js:272), and every lookup is scoped by it. `BodyUserApplied` is the code; `OwnerKept` keeps the owner.

Both are listed under "## Findings".

Query values are cast the way Mongoose casts a filter against the schema before it runs:

- a string compared for equality or membership passes through the path's setters, so an `email` value is lowercased and trimmed, and `company`/`city` values are trimmed;
- a single value given to `$in` is a one-element list;
- a list given for equality is matched as `$in`;
- a `$regex` pattern is used as given.

The handlers' duplicate checks (`findOne({ email, ... })`) compare the normalised email for the same reason.

## Model

| member | source | states |
|---|---|---|
| LeadSchema.FirstKept | backend/models/Lead.js:4-8 | the leading whitespace (the JavaScript `trim` set) ends at the returned position: everything before it is whitespace, the character there is not |
| LeadSchema.LastKept | backend/models/Lead.js:4-8 | the trailing whitespace starts at the returned position: everything from it on is whitespace, the character before it is not |
| LeadSchema.Trim | backend/models/Lead.js:4-8 | `trim: true`: the result has no leading or trailing whitespace and is no longer than the input |
| LeadSchema.TrimIsSlice | backend/models/Lead.js:4-8 | the trimmed string is a slice of the input and everything cut off on either side is whitespace |
| LeadSchema.TrimOfTrimmed | backend/models/Lead.js:4-8 | trimming a trimmed string changes nothing |
| LeadSchema.Lower | backend/models/Lead.js:18 | `lowercase: true`: same length, each character lowered |
| LeadSchema.LowerOfLowercase | backend/models/Lead.js:18 | lowering a lowercase string changes nothing |
| LeadSchema.NormalizedEmailShape | backend/models/Lead.js:14-20 | a stored email is lowercase and trimmed whatever was submitted |
| LeadSchema.NormalizeEmailIdempotent | backend/models/Lead.js:14-20 | applying the email setters to a stored email leaves it unchanged |
| LeadSchema.FirstKeptOfLower | backend/models/Lead.js:18-19 | lowercasing does not move the end of the leading whitespace |
| LeadSchema.LastKeptOfLower | backend/models/Lead.js:18-19 | lowercasing does not move the start of the trailing whitespace |
| LeadSchema.SettersCommute | backend/models/Lead.js:18-19 | the order in which the `lowercase` and `trim` setters run does not matter |
| LeadSchema.NormalizeEmail | backend/models/Lead.js:14-20 | the value the `email` path stores: the `lowercase` then the `trim` setter; its contract is carried by NormalizedEmailShape, NormalizeEmailIdempotent and SettersCommute |
| LeadSchema.ValidLead | backend/models/Lead.js:3-71 | what every validator of the schema accepts: required names and email non-empty, the setters' effects, source and status in their enums, score in [0, 100], leadValue >= 0; used by Instantiate and the store invariant |
| LeadSchema.TrimOption | backend/models/Lead.js:21-36 | an optional string path stays absent or present, and when present holds the trim of the given value |
| LeadSchema.Materialize | backend/models/Lead.js:3-74 | the built document carries the owner, `createdAt = updatedAt = now`, the trimmed names, the normalised email, the trimmed optional strings, the draft's values where given and the schema defaults (`website`, `new`, 0, 0, false) where not |
| LeadSchema.Instantiate | backend/models/Lead.js:3-74 | save succeeds only with firstName, lastName, email and user present and every validator passing on the built document; the saved document is that document |
| LeadSchema.DefaultsFilled | backend/models/Lead.js:37-66 | a draft omitting source, status, score, leadValue and isQualified gets `website`, `new`, 0, 0 and false |
| LeadSchema.BlankFirstNameRefused | backend/models/Lead.js:4-8 | a first name of only whitespace is trimmed to "" and refused by `required` |
| LeadSchema.HasRequiredPaths | backend/models/Lead.js:3-71 | the draft carries every path marked `required: true` that has no default: firstName, lastName, email and user; Instantiate refuses a draft without them |
| LeadSchema.EmailsUniqueGlobally | backend/models/Lead.js:17 | the `unique: true` index on `email`: no two documents, of any owners, share an email; contrasted with EmailsUniquePerOwner by GlobalUniquenessImpliesPerOwner and PerOwnerUniquenessIsWeaker |
| LeadSchema.EmailsUniquePerOwner | backend/routes/leads.js:249-252 | the handlers' per-owner check: no two documents of one owner share an email; strictly weaker than EmailsUniqueGlobally |
| LeadSchema.GlobalUniquenessImpliesPerOwner | backend/models/Lead.js:17 | the global email index implies per-owner uniqueness |
| LeadSchema.PerOwnerUniquenessIsWeaker | backend/models/Lead.js:17 | two owners holding one email each satisfy per-owner uniqueness but break the global index |
| FilterQuery.DayStart | backend/routes/leads.js:115-117 | `setHours(0,0,0,0)` for a fixed offset: the local midnight at or before `t`, less than a day before it |
| FilterQuery.TextCondition | backend/routes/leads.js:39-61 | email, company and city get a condition exactly for `equals` and `contains` |
| FilterQuery.EnumCondition | backend/routes/leads.js:63-77 | status and source get a condition exactly for `equals` and `in` |
| FilterQuery.NumberCondition | backend/routes/leads.js:79-107 | score and lead_value get a condition exactly for `equals`, `gt`, `lt` and `between` |
| FilterQuery.DateCondition | backend/routes/leads.js:113-147 | created_at and last_activity_at get a condition exactly for `on`, `before`, `after` and `between` |
| FilterQuery.ConditionFor | backend/routes/leads.js:36-150 | the condition the compiler assigns to one field, the filter key renamed to the record field; its contract is carried by BuildFilterQuery and FieldCorrect |
| FilterQuery.BuildFilterQuery | backend/routes/leads.js:36-150 | the query always holds `user = caller`; each other field holds a condition exactly when its filter is present with a handled operator (so unknown operators are dropped) |
| FilterQuery.QueryCast | backend/models/Lead.js:14-31 | the setters a compared string passes through in a query: email lowercased and trimmed, company and city trimmed, others unchanged; its effect is stated by EmailEqualsFindsSubmitted and TextConditionCorrect |
| FilterQuery.CastCond | backend/routes/leads.js:39-77 | Mongoose's cast of a condition against its path: setter-cast strings for equality and membership, the `$regex` pattern as given; its effect is stated by TextConditionCorrect and EnumConditionCorrect |
| FilterQuery.Satisfies | backend/routes/leads.js:36-150 | which field values a cast condition selects: equality (membership for a list), `$in` with a single value or a list, strict `$gt`/`$lt`, inclusive ranges, the regex oracle |
| FilterQuery.Matches | backend/routes/leads.js:165-175 | the leads `find(query)` and `countDocuments(query)` select: every condition of the query holds; related to Selected by BuildFilterQueryCorrect |
| FilterQuery.Selected | backend/routes/leads.js:36-150 | the reference semantics of the listing: the caller's leads passing every filter, stated on the lead's fields; related to Matches by BuildFilterQueryCorrect |
| FilterQuery.TextConditionCorrect | backend/routes/leads.js:39-61 | the compiled text condition, cast against its path, holds exactly when the lead's value is the setter-cast operand or the setter-cast of one of a list of operands (`equals`), or the pattern occurs in it (`contains`) |
| FilterQuery.EnumConditionCorrect | backend/routes/leads.js:63-77 | for status and source, `equals` and `in` alike hold exactly when the value is the operand or one of the listed operands; a single value given to `in` is a one-element list |
| FilterQuery.NumberConditionCorrect | backend/routes/leads.js:79-107 | the compiled number condition holds exactly for `=`, strict `>`, strict `<`, inclusive `min..max` |
| FilterQuery.DateConditionCorrect | backend/routes/leads.js:113-147 | the compiled date condition holds exactly for the whole local day (`on`), strictly before, strictly after, inclusive `start..end` |
| FilterQuery.MatchesByField | backend/routes/leads.js:36-150 | a lead matches the query exactly when each field's condition, where present, holds |
| FilterQuery.FieldCorrect | backend/routes/leads.js:36-150 | per field, the compiled condition agrees with the reference semantics |
| FilterQuery.SelectedByField | backend/routes/leads.js:36-150 | the reference semantics is the conjunction of its per-field parts |
| FilterQuery.BuildFilterQueryCorrect | backend/routes/leads.js:36-150 | the compiled query selects a lead exactly when it is the caller's and passes every filter (both directions) |
| FilterQuery.OnlyOwnLeadsMatch | backend/routes/leads.js:37 | whatever the filters, a selected lead belongs to the caller |
| FilterQuery.UnhandledOperatorIgnored | backend/routes/leads.js:79-92 | a score filter with an unhandled operator leaves the query as if the filter were absent |
| FilterQuery.ScoreBetweenInclusive | backend/routes/leads.js:86-91 | `between` on score selects exactly `min <= score <= max` |
| FilterQuery.LeadValueGtStrict | backend/routes/leads.js:94-99 | `gt` on lead_value selects exactly `leadValue > x`, on the `leadValue` field |
| FilterQuery.CreatedOnCoversDay | backend/routes/leads.js:113-118 | `on` selects from the day's first to its last millisecond, and the day contains `t` |
| FilterQuery.EmailEqualsFindsSubmitted | backend/routes/leads.js:40-41 | `email equals e` selects a lead of the caller exactly when its stored email is what the setters make of `e`, whatever the case and surrounding whitespace of `e` |
| FilterQuery.SingleStatusIn | backend/routes/leads.js:64-67 | `in` with a single status selects exactly the leads with that status, as `equals` does |
| FilterQuery.EnumEqualsIsIn | backend/routes/leads.js:63-77 | for status and source, `equals` and `in` with the same value accept the same leads |
| FilterQuery.InCastAll | backend/routes/leads.js:39-61 | a string is in the cast list exactly when it is the cast of one of the list's strings |
| Pagination.PageNumber | backend/routes/leads.js:155 | a missing, unparsable or zero page becomes 1, any other passes through; never 0 |
| Pagination.PageSize | backend/routes/leads.js:156 | the limit defaults to 20 when missing or zero, is capped at 100, and otherwise passes through |
| Pagination.Skip | backend/routes/leads.js:157 | page 1 skips nothing; positive pages and limits skip a non-negative count |
| Pagination.SkipAdvancesByLimit | backend/routes/leads.js:157 | each page starts `limit` documents after the previous one |
| Pagination.TotalPages | backend/routes/leads.js:177 | `ceil(total / limit)`: 0 for no documents; the least page count covering `total` for positive limits; the ceiling also for negative limits |
| Pagination.TotalPagesZero | backend/routes/leads.js:177 | with a positive limit there are no pages exactly when there are no documents |
| Pagination.LastPageHoldsRemainder | backend/routes/leads.js:157-177 | the last page starts inside the results and holds at most `limit` documents |
| Pagination.ExamplePageCounts | backend/routes/leads.js:177 | 105 documents at 20 per page make 6 pages; 100 make 5; 0 make 0 |
| Pagination.Insert | backend/routes/leads.js:172 | inserting into a newest-first sequence keeps it newest first and adds exactly that element |
| Pagination.SortNewestFirst | backend/routes/leads.js:172 | `.sort({ createdAt: -1 })`: the result is ordered by key, descending, and is a permutation of the input |
| Pagination.Window | backend/routes/leads.js:173-174 | `.skip().limit()`: the documents from position `skip` on, at most `limit` of them, in order |
| Pagination.AdjacentWindows | backend/routes/leads.js:173-174 | the window right after a window continues it: together they are the window of twice the size |
| Pagination.WindowsTile | backend/routes/leads.js:157-174 | consecutive pages neither overlap nor leave a gap |
| Pagination.SixthPageOfHundredFive | backend/routes/leads.js:155-177 | with 105 documents and 20 per page, page 6 holds the last 5 |
| LeadStore.GetOutcome | backend/routes/leads.js:193-208 | 500 exactly when the id is not an ObjectId; otherwise the document when the cast id exists and is the caller's, 404 when not |
| LeadStore.Owns | backend/routes/leads.js:197 | the ownership lookup `findOne({ _id, user })` (the same lookup guards update at lines 310-313 and delete at lines 359-362): the id is stored and its document belongs to the caller; GetOutcome, UpdateStep and DeleteStep answer 404 exactly when it fails (NotYoursIsNotFound) |
| LeadStore.HasOwnedEmail | backend/routes/leads.js:321-325 | the duplicate lookup (here with the excluded id; the create handler's lookup at lines 249-252 passes no exclusion): some lead of the caller, other than the excluded id, holds the normalised email; its use is stated by CreateDuplicateIff and UpdateDuplicateIff |
| LeadStore.IndexAdmits | backend/models/Lead.js:17 | the email index lets a document be written: no other document holds its email, or, under a per-owner index, only other owners' documents do; kept by InsertKeepsIndex |
| LeadStore.CreateDraft | backend/routes/leads.js:232-273 | what the handler passes to `new Lead`: the body with the destructuring defaults `new`, 0, 0, false and the caller as owner; stated by CreateAddsOne |
| LeadStore.CreateStep | backend/routes/leads.js:226-282 | POST /: validation verdict, per-owner duplicate check, then `save`; its contract is carried by LeadCollection.Create, CreatePreservesInvariant, CreateDuplicateIff, CreateAddsOne, CreateSucceedsUnderOwnerIndex, CrossOwnerEmailFailsUnderGlobalIndex and CreatedLeadIsFound |
| LeadStore.EmailChanges | backend/routes/leads.js:320 | the body carries a non-empty email different from the stored one; used by UpdateDuplicateIff |
| LeadStore.OwnerCastFails | backend/routes/leads.js:337-341 | as written, the body's `user` is not an ObjectId, so the update's cast fails; stated by MalformedBodyUserFails |
| LeadStore.UpdateStep | backend/routes/leads.js:299-352 | PUT /:id: validation, the id cast, the ownership lookup, the email check, then `findOneAndUpdate` with its cast and validators; its contract is carried by LeadCollection.Update, UpdatePreservesInvariant, UpdateDuplicateIff, UpdateChangesOnlyTarget, UnchangedEmailSucceeds, AsWrittenUpdateReassignsOwner, MalformedBodyUserFails and UpdateKeepsOwnership |
| LeadStore.DeleteStep | backend/routes/leads.js:355-373 | DELETE /:id: the id cast, then `findOneAndDelete` of the caller's document; its contract is carried by LeadCollection.Delete, DeletePreservesInvariant, DeleteRemovesOnlyTarget and DeletedLeadIsGone |
| LeadStore.CastObjectId | backend/routes/leads.js:197 | the route id cast (the same cast applies to the lookups at lines 310-313 and 359-362): it succeeds exactly for 24 hexadecimal digits, and yields their lowercase spelling, itself an ObjectId text |
| LeadStore.CastObjectIdCanonical | backend/routes/leads.js:197 | the text form of an ObjectId casts to itself |
| LeadStore.CastObjectIdIdempotent | backend/routes/leads.js:197 | casting a cast id changes nothing |
| LeadStore.Patched | backend/routes/leads.js:337-341 | every path the body carries replaces the stored one through its setters (names and optional strings trimmed, email normalised) and every other path stays; `createdAt` stays, `updatedAt` becomes now; under `BodyUserApplied` an ObjectId `user` in the body becomes the owner, cast to its text form |
| LeadStore.PatchIdempotent | backend/routes/leads.js:337-341 | applying the same body twice at the same time gives the same document as applying it once |
| LeadStore.LeadCollection.Get | backend/routes/leads.js:193-208 | returns `GetOutcome` of the current collection |
| LeadStore.LeadCollection.Create | backend/routes/leads.js:211-282 | performs `CreateStep` in place and keeps the invariant |
| LeadStore.LeadCollection.Update | backend/routes/leads.js:285-352 | performs `UpdateStep` under the collection's email index and owner rule in place and keeps the invariant |
| LeadStore.LeadCollection.Delete | backend/routes/leads.js:355-373 | performs `DeleteStep` in place and keeps the invariant |
| LeadStore.LeadCollection.Scan | backend/routes/leads.js:168-175 | lists every stored document the query selects, each once, as stored |
| LeadStore.LeadCollection.List | backend/routes/leads.js:153-190 | fails exactly when the skip is negative; otherwise page and limit are the defaulted values, total counts the matching documents, totalPages is `TotalPages(total, limit)`, every returned document is the caller's and passes the filters, and the data is the window of a newest-first enumeration of the matching documents |
| LeadStore.CreatePreservesInvariant | backend/routes/leads.js:248-277 | create keeps every document valid and the email index intact |
| LeadStore.UpdatePreservesInvariant | backend/routes/leads.js:320-341 | update keeps every document valid and the email index intact |
| LeadStore.DeletePreservesInvariant | backend/routes/leads.js:359-362 | delete keeps every document valid and the email index intact |
| LeadStore.InsertKeepsIndex | backend/models/Lead.js:17 | writing a valid document the index admits keeps the invariant, under either index |
| LeadStore.CreateDuplicateIff | backend/routes/leads.js:248-256 | create answers Duplicate exactly when validation passed and the caller holds a lead with the normalised email; no outcome but Ok changes the collection |
| LeadStore.CreateAddsOne | backend/routes/leads.js:232-277 | a successful create adds exactly one document under the new id: owned by the caller, valid, normalised email, the handler's defaults and no activity date when none was given |
| LeadStore.CreateSucceedsUnderOwnerIndex | backend/routes/leads.js:248-277 | with a per-owner index, a valid create whose email the caller does not yet hold succeeds, whatever other owners hold |
| LeadStore.OwnerIndexAdmitsNewEmail | backend/routes/leads.js:248-256 | under a per-owner index, a document whose owner holds no lead with its email can be written |
| LeadStore.CrossOwnerEmailFailsUnderGlobalIndex | backend/models/Lead.js:17 | with the schema's global index, a create reusing another owner's email passes the handler's check and then fails in `save` |
| LeadStore.NotYoursIsNotFound | backend/routes/leads.js:309-317 | for an id that is an ObjectId, get, update and delete answer 404 exactly when the caller has no document with it, and change nothing then |
| LeadStore.MalformedIdIsStoreFailure | backend/routes/leads.js:193-206 | an id that is not an ObjectId makes get, update (after validation) and delete answer 500 and change nothing |
| LeadStore.CreatedLeadIsFound | backend/routes/leads.js:193-277 | a lead created under an ObjectId text is found by its owner under that id, as the document create returned |
| LeadStore.DeletedLeadIsGone | backend/routes/leads.js:193-368 | once a delete answers 204, getting the same id answers 404 |
| LeadStore.UpdateDuplicateIff | backend/routes/leads.js:319-330 | update answers Duplicate exactly when the id names one of the caller's leads and the body's email is non-empty, differs from the stored one, and another of the caller's leads holds it normalised; nothing changes then |
| LeadStore.UnchangedEmailNotDuplicate | backend/routes/leads.js:320 | resubmitting the lead's current email is never a duplicate |
| LeadStore.UnchangedEmailSucceeds | backend/routes/leads.js:319-347 | a body carrying only the current email is accepted and only `updatedAt` changes |
| LeadStore.UpdateChangesOnlyTarget | backend/routes/leads.js:337-347 | a successful update rewrites only the document the cast id names, which keeps `createdAt`, is valid, and is owned by the caller unless the rule applies the body's `user`, which is then that cast ObjectId |
| LeadStore.AsWrittenUpdateReassignsOwner | backend/routes/leads.js:307-341 | as written (global index, body's `user` applied), a PUT whose body carries only another account's ObjectId succeeds and moves the lead out of the caller's scope into that account's |
| LeadStore.MalformedBodyUserFails | backend/routes/leads.js:337-351 | as written, a body `user` that is not an ObjectId never lets the update succeed (the CastError answers 500) and changes nothing |
| LeadStore.GlobalIndexAdmitsSameEmail | backend/models/Lead.js:17 | under the global index a document may be rewritten with the email it already has |
| LeadStore.UpdateKeepsOwnership | backend/routes/leads.js:272 | with the owner kept, no update, whatever its body and outcome, changes which account owns any lead |
| LeadStore.DeleteRemovesOnlyTarget | backend/routes/leads.js:359-368 | deleting an owned lead answers 204 and removes exactly that document |

## Left out

- Authentication (leads.js:11-33) is not modelled: the caller's id is a parameter. The `User` model is not part of this model.
- express-validator's rules (leads.js:211-224, 285-298) are not modelled: the verdict is the `hasErrors` parameter. The create body is assumed to carry the fields those rules require.
- The sanitizers' `normalizeEmail` is not modelled beyond the schema's own trim and lowercase. For example, its Gmail-specific rewriting is not modelled.
- Regular-expression matching is an uninterpreted `RegexOracle`. Escaping of the pattern is not modelled either.
- Dates use a fixed UTC offset for the server's local time. Daylight-saving changes are not modelled.
- `new Date` of a value that is not a date gives an invalid date, and Mongoose's date cast would reject it with a CastError (500). The model does not model that error: such a condition selects nothing.
- Numbers are reals, so floating-point rounding is not modelled. `parseInt` is not modelled: the page and limit parameters arrive as the integer they parse to, or absent.
- A filter value of the wrong shape (for example an `equals` without a value, `between` without `min`/`max`, or a list as a `contains` pattern) makes the model's query select nothing. Mongoose would raise a cast error (500) or compare against `null`. On the email, company, city, status and source paths, a single string for `in` and a list for `equals` are not of the wrong shape: they are modelled as Mongoose casts them.
- Filter values for `score` and `lead_value` arrive already cast to numbers (`Number`, or `NumberBounds` for `between`). Mongoose's cast of a query-string value to the `Number` type of those paths is not modelled, and neither is its cast of a list for `equals` into `$in` of numbers. In the model, a `Text` or `Texts` operand on those paths selects nothing, whereas Mongoose would match the lead whose number the string spells.
- `is_qualified` arrives as a boolean; casting its query string to a boolean is not modelled.
- Lowercasing covers ASCII letters only.
- Concurrency is not modelled: each handler runs as a single atomic step. The consequences:
  - The race between the duplicate check and the write is not captured.
  - The second 404 of the update handler (leads.js:343-345) cannot happen in a sequential store, so it is not modelled.
- `LeadStore.LeadCollection.List`: a negative limit is taken as its absolute value for the number of documents returned. This is what MongoDB does with `limit(-n)`.
- `LeadStore.LeadCollection.List`: the store error for a negative skip is modelled as the only failure.
- `LeadStore.LeadPatch` carries the schema paths and `user`. A body carrying `_id`, `createdAt` or `updatedAt` is not modelled, nor clearing an optional path by sending `null`.
- Update validation checks the whole updated document rather than only the updated paths, as `runValidators` does. The two agree because every stored document is valid.
- `LeadStore.CastObjectId` accepts only the 24-digit hexadecimal form. Some driver versions also accept any 12-character string as an ObjectId; that form is not modelled.
- `LeadStore.CreateStep` takes the new document's `_id` as the parameter `newId`, standing for the ObjectId Mongoose generates. The model does not require `newId` to be in text form; `CreatedLeadIsFound` assumes it.
- Server setup, the database connection, the seed script and the frontend are not part of this model.

## Findings

| source | as written | input that shows it | evidently intended | confidence | as-written member | corrected member |
|---|---|---|---|---|---|---|
| backend/models/Lead.js:17 | `unique: true` on `email` builds a unique index across all owners; the handler checks only the caller's leads | account B creates a lead with an email that account A already uses: the handler's check passes and `save` fails with a duplicate-key error (500) | email unique per owner, so the create succeeds (the compound `{ user, email }` index at Lead.js:77 is not unique) | not executed | LeadStore.CrossOwnerEmailFailsUnderGlobalIndex | LeadStore.CreateSucceedsUnderOwnerIndex |
| backend/routes/leads.js:307 | the whole request body is passed to `findOneAndUpdate`, so a `user` field in it is applied | the owner of lead L sends PUT /leads/L with `{ "user": "<id of account B>" }`: L moves to B's account, and its former owner gets 404 for it from then on | the owner is only ever the caller's account, as create sets it (leads.js:272) and every lookup assumes | not executed | LeadStore.AsWrittenUpdateReassignsOwner | LeadStore.UpdateKeepsOwnership |
