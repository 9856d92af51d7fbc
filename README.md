# Lead ingestion and insight derivation, modelled in Dafny

This project models the core of a small CRM backend. Leads arrive with an
idempotency key. They are validated and stored, and a "lead created" event is
published for each new lead. A worker turns each event into an insight request.
The request is validated, de-duplicated by (lead id, content hash) and filled
in by an insight generator. A lead can be read back with its insights.

The modules follow the program's layers:

| file | module | what it holds |
|---|---|---|
| `wrappers.dfy` | `Wrappers` | `Option` and `Result` |
| `pystrings.dfy` | `PyStrings` | the Python string operations the core uses: `strip`, `count`, `index`, `join`, `replace`, `isdigit` |
| `uuids.dfy` | `Uuids` | `uuid.UUID(text)` and `str(uuid)`, with their round trip |
| `entities.dfy` | `Entities` | length limits, the three closed enumerations, the lead and insight records |
| `exceptions.dfy` | `Exceptions` | one constructor per exception the core signals |
| `dto.dfy` | `Dto` | the two mutable input DTOs (classes), `to_dict`, `from_model` |
| `validators.dfy` | `Validators` | `ValidateLead` and `ValidateInsight` as classes whose `Validate` strips the DTO in place and builds the error list; rule functions and their lemmas |
| `repositories.dfy` | `Repositories` | the tables as a value; a `Session` class with `staged` (flushed) and `durable` (committed) tables; the three repository classes, each method proved against a function on the tables |
| `interactors.dfy` | `Interactors` | the broker, the generator, and the three interactor classes. Each use case is proved against a step function from committed tables to result, new tables and published events. Lemmas cover idempotency, consistency, the event-to-insight hand-off and read-after-create. |

Modelling choices:

- Identifiers are 128-bit numbers. Text is turned into a UUID as
  `uuid.UUID` does for plain hexadecimal text: "urn:" and "uuid:" prefixes,
  braces and hyphens are removed, and then 32 hexadecimal digits are read.
  The other digit forms Python accepts are under "Left out".
- SHA-256 and `uuid5` are parameters (`string -> Digest`, `string -> Uuid`).
  A digest is 64 lower-case hexadecimal digits.
- The caller supplies the time, the new row ids and the idempotency key.
- The insight generator is an object holding a stream of answers fixed in
  advance and a call counter. "The generator was not asked" is therefore
  observable.
- A flush checks the database constraints that the schema declares
  (`backend/infrastructure/db/models.py`):
  - primary keys;
  - the lead's varchar widths and its non-null note;
  - the insight's foreign key to its lead;
  - the confidence range check;
  - the 64-character content hash.

  A violation is a `DatabaseError`.
- There is no database constraint on an insight's (lead id, content hash)
  pair. Its uniqueness is proved for calls served one after another
  (`Interactors.Consistent`).

Two behaviours of the program shape what is proved:

- A replayed idempotency key raises `LeadAlreadyExistsException`.
- Insight de-duplication is a check followed by an insert, not a constraint
  enforced by the store.

## Model

| member | source | states |
|---|---|---|
| `PyStrings.StripShape` | backend/application/lead/validators.py:15-16 | `strip` returns the infix of its input that is left once whitespace is removed from both ends; only stripped characters lie around it and none at its ends |
| `PyStrings.StripUnique` | backend/application/lead/validators.py:15-16 | an independent description of `strip`: whatever surrounds a trimmed string with stripped characters strips back to it |
| `PyStrings.StripIdempotent` | backend/application/lead/validators.py:69-70 | stripping twice gives what stripping once gives |
| `PyStrings.StripEmptyIffBlank` | backend/application/lead/validators.py:27 | `not s.strip()` holds exactly when every character of `s` is whitespace |
| `PyStrings.Strip` | backend/application/lead/validators.py:15-16 | `s.strip()`; it has no contract of its own: `StripShape`, `StripUnique`, `StripIdempotent` and `StripEmptyIffBlank` state what it returns |
| `PyStrings.TrimLeftRemoves` | backend/application/lead/validators.py:16 | what the left trim drops consists of stripped characters only |
| `PyStrings.TrimRightRemoves` | backend/application/lead/validators.py:16 | what the right trim drops consists of stripped characters only |
| `PyStrings.IndexOf` | backend/application/lead/validators.py:36 | the first position of the character, or the length when it does not occur |
| `PyStrings.CountOne` | backend/application/lead/validators.py:33 | `count('@') == 1` exactly when '@' occurs at its first position and nowhere after |
| `PyStrings.CountConcat` | backend/application/lead/validators.py:33 | counting over a concatenation adds the counts |
| `PyStrings.Count` | backend/application/lead/validators.py:33 | `s.count(c)` is at most the length, and 0 exactly when `c` does not occur; `CountOne` and `CountConcat` state the rest |
| `PyStrings.IsDigits` | backend/application/lead/validators.py:45 | `s.isdigit()` as a definition with no contract: non-empty and every character an ASCII digit (other Unicode digits are under Left out) |
| `PyStrings.Join` | backend/application/lead/validators.py:63 | `"; ".join(parts)`: when no part is empty, the result is empty exactly when there are no parts, so a raised message is never empty |
| `PyStrings.RemoveAll` | backend/infrastructure/db/repositories.py:70 | `s.replace(pat, "")` as `uuid.UUID` uses it: never longer than its input, and `RemoveAllAbsent` says nothing is removed when the pattern's first character does not occur |
| `Uuids.HexValueToHex` | backend/infrastructure/db/repositories.py:70 | reading back the hexadecimal digits written for a number gives the number |
| `Uuids.ParseToString` | backend/infrastructure/db/repositories.py:70 | `uuid.UUID(str(u)) == u` |
| `Uuids.PreparedCanonical` | backend/infrastructure/db/repositories.py:70 | the canonical text loses nothing but its hyphens before its digits are read |
| `Uuids.ToStringInjective` | backend/infrastructure/db/repositories.py:70 | distinct UUIDs have distinct canonical texts |
| `Uuids.Parse` | backend/infrastructure/db/repositories.py:70 | `uuid.UUID(text)`: only text of at least 32 characters is accepted; `ParseToString` shows every canonical text is accepted and read back as its UUID |
| `Uuids.ToString` | backend/tests/integration/test_interactors.py:26 | `str(u)` is 36 characters long; `ToStringCanonical` gives the 8-4-4-4-12 layout and `ParseToString` the round trip |
| `Uuids.ToStringCanonical` | backend/tests/integration/test_interactors.py:26 | `str(u)` has hyphens at positions 8, 13, 18 and 23 and lower-case hexadecimal digits everywhere else |
| `Entities.IntentOf` | backend/domen/entities.py:14-19 | `IntentEnum(s)` is the member whose value is `s`, and fails exactly for strings outside {buy, support, spam, job, other} |
| `Entities.PriorityOf` | backend/domen/entities.py:21-25 | `PriorityEnum(s)` fails exactly outside {P0, P1, P2, P3} |
| `Entities.NextActionOf` | backend/domen/entities.py:27-31 | `NextActionEnum(s)` fails exactly outside {call, email, ignore, qualify} |
| `Entities.EnumRoundTrips` | backend/domen/entities.py:14-31 | looking a member up by its own value gives the member back |
| `Dto.LeadCreateIn.constructor` | backend/application/lead/dto.py:13-19 | the DTO holds the given note and optional fields |
| `Dto.LeadPayload` | backend/application/lead/dto.py:20-27 | the payload has exactly the five keys, the note always present, and reads back as the fields it was built from |
| `Dto.LeadCreateIn.ToDict` | backend/application/lead/dto.py:20-27 | exactly the keys email, phone, name, note, source, the note always present as the DTO's note, all reading back as the DTO's current fields |
| `Dto.InsightCreateIn.constructor` | backend/application/lead/dto.py:56-60 | the DTO holds the given content, lead id and hash |
| `Dto.OptionalAttr` | backend/application/lead/dto.py:48-51 | a missing attribute reads as None, a present one as its value |
| `Dto.FromModel` | backend/application/lead/dto.py:42-54 | id, note and created_at are copied; missing optional attributes become None; missing, None or empty insights become the empty list |
| `Dto.FromEntity` | backend/application/lead/dto.py:45-53 | `from_model` of a lead entity copies every field unchanged |
| `Validators.Norm` | backend/application/lead/validators.py:15-16 | `_norm` keeps None and strips a present string |
| `Validators.NormalizeLead` | backend/application/lead/validators.py:19-25 | the five `_norm` assignments of `validate`, as a definition; `NormalizeLeadIdempotent` and `BlankNoteRejected` state its properties |
| `Validators.NormalizeLeadIdempotent` | backend/application/lead/validators.py:19-25 | normalizing a normalized lead changes nothing, so validating twice leaves the DTO as validating once does |
| `Validators.EmailViolations` | backend/application/lead/validators.py:31-40 | only the three email rules can be reported for an email |
| `Validators.ContactViolations` | backend/application/lead/validators.py:51-60 | the name and source checks report exactly the name and source rules the lead breaks |
| `Validators.LeadMessages` | backend/application/lead/validators.py:27-60 | one message per broken rule, each the rule's own text, in rule order |
| `Validators.PhoneViolations` | backend/application/lead/validators.py:43-48 | the digits rule is reported iff the phone is not all digits, the length rule iff it is longer than 50 |
| `Validators.NameViolations` | backend/application/lead/validators.py:51-56 | the short rule iff the name is under 2 characters, the long rule iff over 255 |
| `Validators.EmailShapeMatch` | backend/application/lead/validators.py:33-38 | the '@'-count and split checks accept exactly the emails with one '@', a non-empty local part and a domain holding '.' |
| `Validators.EmailViolationsComplete` | backend/application/lead/validators.py:31-40 | each email rule is reported exactly when its condition holds |
| `Validators.LeadViolationsComplete` | backend/application/lead/validators.py:19-60 | every rule the normalized lead breaks is reported and only those: no short-circuit |
| `Validators.LeadViolations` | backend/application/lead/validators.py:27-60 | the rules a normalized lead breaks, as a definition; `LeadViolationsInOrder` and `LeadViolationsComplete` state which rules appear and in what order |
| `Validators.LeadViolationsInOrder` | backend/application/lead/validators.py:27-60 | the reported rules are exactly the broken ones among all nine rules, in the order `validate` checks them and each at most once |
| `Validators.BrokenIn` | backend/application/lead/validators.py:27-60 | the rules of a list that the lead breaks, in list order: a rule appears exactly when it is in the list and broken |
| `Validators.RuleReported` | backend/application/lead/validators.py:19-60 | the same, one rule at a time |
| `Validators.LeadRulesMatch` | backend/application/lead/validators.py:27-60 | no rule is broken exactly when the lead is acceptable (non-blank note, each present field within its rules) |
| `Validators.LeadOutcomeMatches` | backend/application/lead/validators.py:62-63 | validation returns normally iff the lead is acceptable, and otherwise raises `InvalidLeadDataException` with the messages of every broken rule joined by "; " |
| `Validators.LeadOutcome` | backend/application/lead/validators.py:62-63 | the outcome of the checks, as a definition; `LeadOutcomeMatches` states when it is normal and what is raised |
| `Validators.BlankNoteRejected` | backend/application/lead/validators.py:27-28 | the note rule is reported exactly when the note is blank before stripping |
| `Validators.EmailWithoutDotRejected` | backend/application/lead/validators.py:36-38 | "a@b" is reported as having invalid parts, and only that |
| `Validators.NoteErrors` | backend/application/lead/validators.py:27-28 | the messages the note check appends are those of the note rule when broken |
| `Validators.EmailErrors` | backend/application/lead/validators.py:31-40 | the email block appends the messages of the broken email rules, in rule order and each once (`EmailBlockInOrder`) |
| `Validators.EmailBlockInOrder` | backend/application/lead/validators.py:31-40 | the email block reports exactly the broken email rules, in the order they are checked and each at most once |
| `Validators.PhoneErrors` | backend/application/lead/validators.py:43-48 | the phone block appends the messages of the broken phone rules, in rule order and each once (`PhoneBlockInOrder`) |
| `Validators.PhoneBlockInOrder` | backend/application/lead/validators.py:43-48 | the phone block reports exactly the broken phone rules, in the order they are checked and each at most once |
| `Validators.NameErrors` | backend/application/lead/validators.py:51-56 | the name block appends the messages of the broken name rules, in rule order and each once (`NameBlockInOrder`) |
| `Validators.NameBlockInOrder` | backend/application/lead/validators.py:51-56 | the name block reports exactly the broken name rules, in the order they are checked and each at most once |
| `Validators.SourceErrors` | backend/application/lead/validators.py:59-60 | the source check appends its message when the source is over 100 characters |
| `Validators.ValidateLead.Validate` | backend/application/lead/validators.py:18-63 | the DTO ends stripped and the result is the outcome of validating the stripped lead |
| `Validators.ValidateLead.Normalize` | backend/application/lead/validators.py:21-25 | every present field is replaced by its stripped form; None stays None |
| `Validators.ValidateLead.Errors` | backend/application/lead/validators.py:19-60 | the error list is `LeadMessages(LeadViolations(..))` of the normalized lead: by `LeadViolationsInOrder`, the messages of every broken rule in rule order, each once |
| `Validators.ValidateLead.Check` | backend/application/lead/validators.py:62-63 | the result is the lead's outcome: normal return iff no rule is broken, otherwise `InvalidLeadDataException` with the joined messages |
| `Validators.InsightOutcome` | backend/application/lead/validators.py:78-86 | validation of a stripped request succeeds iff content, lead id and hash are all non-empty, and otherwise raises with the joined messages |
| `Validators.NormalizeInsight` | backend/application/lead/validators.py:73-76 | the three `_norm` assignments, as a definition; `NormalizeInsightIdempotent` and `InsightAcceptedIffNotBlank` state its properties |
| `Validators.NormalizeInsightIdempotent` | backend/application/lead/validators.py:73-76 | normalizing a normalized request changes nothing |
| `Validators.InsightViolations` | backend/application/lead/validators.py:78-83 | the rules a normalized request breaks, as a definition; `InsightViolationsInOrder` states which and in what order |
| `Validators.InsightViolationsInOrder` | backend/application/lead/validators.py:78-83 | exactly one rule per empty field, in field order (content, lead_id, content_hash), each at most once |
| `Validators.InsightBrokenIn` | backend/application/lead/validators.py:78-83 | the rules of a list whose field is empty, in list order: a rule appears exactly when it is in the list and its field is empty |
| `Validators.InsightAcceptedIffNotBlank` | backend/application/lead/validators.py:72-86 | a request passes iff none of its three strings is blank |
| `Validators.ValidateInsight.Validate` | backend/application/lead/validators.py:72-86 | the DTO ends stripped and the result is the outcome for the stripped request |
| `Validators.ValidateInsight.Normalize` | backend/application/lead/validators.py:74-76 | the three strings are replaced by their stripped forms |
| `Validators.ValidateInsight.Check` | backend/application/lead/validators.py:77-86 | the result is the request's outcome: one message per empty field, in field order and each once (`InsightViolationsInOrder`), raised iff any |
| `Repositories.InsightModelToEntity` | backend/infrastructure/db/repositories.py:39-50 | the entity carries the row's id, lead id, hash and creation time |
| `Repositories.InsightModelToEntityLossless` | backend/infrastructure/db/repositories.py:39-50 | the row can be read back from the entity: every field is copied |
| `Repositories.LeadInsights` | backend/infrastructure/db/repositories.py:75 | a lead's insights are exactly the stored insights with its id |
| `Repositories.NoLeadInsights` | backend/infrastructure/db/repositories.py:75 | a lead none of whose rows are stored has no insights |
| `Repositories.InsightsToEntities` | backend/infrastructure/db/repositories.py:23-36 | one entity per insight row, in order |
| `Repositories.LeadModelToEntity` | backend/infrastructure/db/repositories.py:14-37 | the lead's columns are copied and its insights are converted in stored order |
| `Repositories.NormalizeKey` | backend/infrastructure/db/repositories.py:93-97 | a key that reads as a UUID becomes that UUID; any other key becomes `uuid5(key)` |
| `Repositories.NormalizeCanonicalKey` | backend/infrastructure/db/repositories.py:93-95 | the canonical text of a UUID normalizes to that UUID |
| `Repositories.KeyCreate` | backend/infrastructure/db/repositories.py:105-108 | adds exactly the normalized key; a key already present fails at flush and changes nothing |
| `Repositories.KeyCreateThenExists` | backend/infrastructure/db/repositories.py:99-108 | after `create(k)`, `exists(k')` holds for every `k'` normalizing to the same UUID; exactly one key was added |
| `Repositories.LeadCreate` | backend/infrastructure/db/repositories.py:56-66 | unknown keys are rejected; otherwise the lead is staged iff the note is present, the id is free and the strings fit their columns; the result is the stored lead (PostgreSQL's U+0000 and trailing-space rules are not modelled) |
| `Repositories.LeadRowOf` | backend/infrastructure/db/repositories.py:62 | `models.Lead(**payload)`, as a definition; `LeadRowOfPayload` states what it holds |
| `Repositories.LeadRowOfPayload` | backend/infrastructure/db/repositories.py:57-62 | the row built from `to_dict()` holds exactly the lead's note, email, phone, name and source, with the new id and time |
| `Repositories.LeadGet` | backend/infrastructure/db/repositories.py:68-83 | a non-UUID id raises ValueError; only ValueError or not-found can be raised |
| `Repositories.LeadGetParsed` | backend/infrastructure/db/repositories.py:68-83 | for an id reading as a UUID: the stored lead with its insights, or `LeadNotFoundException` |
| `Repositories.LeadGetById` | backend/infrastructure/db/repositories.py:68-83 | the same for the canonical text of a UUID |
| `Repositories.GetAfterCreate` | backend/infrastructure/db/repositories.py:56-83 | `get` after `create` returns the created lead, with the payload's note, email, phone, name and source, and the insights already stored under its id |
| `Repositories.ToFloat` | backend/infrastructure/db/repositories.py:127 | `float(x)` succeeds exactly for numbers and returns the number |
| `Repositories.IntentFrom` | backend/infrastructure/db/repositories.py:133 | only a string naming a member converts; the member's value is that string |
| `Repositories.PriorityFrom` | backend/infrastructure/db/repositories.py:134 | the same for priorities |
| `Repositories.NextActionFrom` | backend/infrastructure/db/repositories.py:135 | the same for next actions |
| `Repositories.DraftFromMapping` | backend/infrastructure/db/repositories.py:116-119 | a non-UUID lead id raises ValueError; otherwise the fields are read for the parsed id |
| `Repositories.DraftFromMappingParsed` | backend/infrastructure/db/repositories.py:116-121 | for an id reading as `u`, the mapping is read for `u` |
| `Repositories.DraftFields` | backend/infrastructure/db/repositories.py:121-145 | on success the four required keys are present, the enumeration members are those named, confidence defaults to 0, tags to None, and the hash is the mapping's |
| `Repositories.DraftFromEntity` | backend/infrastructure/db/repositories.py:146-155 | fails exactly for a non-UUID id; otherwise copies the entity's classification, confidence, tags and hash |
| `Repositories.InsightFlush` | backend/infrastructure/db/repositories.py:157-160 | the row is appended iff its lead exists, confidence is in [0, 1], tags are a list or None, the hash is a string of at most 64 characters and the id is free (PostgreSQL's U+0000 and trailing-space rules are not modelled) |
| `Repositories.InsightCreate` | backend/infrastructure/db/repositories.py:115-160 | errors of reading the mapping are raised unchanged; on success exactly one insight row is appended and nothing else changes, and the stored intent, priority, next_action, confidence (0 when absent) and tags (None when absent) are the mapping's |
| `Repositories.FlushKeepsClassification` | backend/infrastructure/db/repositories.py:121-160 | the row flushed from a draft read from the mapping carries the mapping's intent, priority, next_action, confidence and tags |
| `Repositories.ClassifiedAsIgnoresHash` | backend/application/lead/interactors.py:69 | overwriting content_hash in the generator's answer leaves the classification it gives unchanged |
| `Repositories.InsightCreateChecks` | backend/infrastructure/db/repositories.py:115-160 | a successful create had a stored lead, a free id, and stored the mapping's hash |
| `Repositories.InsightCreateFromEntity` | backend/infrastructure/db/repositories.py:146-160 | on success one row is appended carrying the entity's classification, confidence, tags and hash under the new id |
| `Repositories.MissingFieldsInOrder` | backend/infrastructure/db/repositories.py:123-131 | missing fields are reported in the order intent, priority, next_action, then content_hash |
| `Repositories.UnknownIntentRejected` | backend/infrastructure/db/repositories.py:133 | an intent naming no member fails with the enumeration's error |
| `Repositories.CountMatchesPositive` | backend/infrastructure/db/repositories.py:167-173 | the count is positive exactly when some stored insight has both the lead id and the hash |
| `Repositories.CountMatches` | backend/infrastructure/db/repositories.py:167-173 | the count query: never more than the number of stored insights; `CountMatchesPositive` says when it is positive |
| `Repositories.InsightExists` | backend/infrastructure/db/repositories.py:162-166 | a non-UUID lead id gives False, not an error |
| `Repositories.InsightExistsParsed` | backend/infrastructure/db/repositories.py:162-173 | for an id reading as `u`, `exists` holds iff an insight of `u` has the hash |
| `Repositories.Session.Commit` | backend/application/lead/interactors.py:38 | the committed tables become the flushed ones |
| `Repositories.LeadRepository.Create` | backend/infrastructure/db/repositories.py:56-66 | stages as `LeadCreate` says; nothing is committed |
| `Repositories.LeadRepository.Get` | backend/infrastructure/db/repositories.py:68-83 | returns what `LeadGet` says of the flushed tables |
| `Repositories.KeysRepository.Exists` | backend/infrastructure/db/repositories.py:99-103 | true iff the normalized key is stored |
| `Repositories.KeysRepository.Create` | backend/infrastructure/db/repositories.py:105-108 | stages as `KeyCreate` says; nothing is committed |
| `Repositories.InsightRepository.Create` | backend/infrastructure/db/repositories.py:115-160 | stages as `InsightCreate` says: one row carrying the mapping's classification and hash; nothing is committed |
| `Repositories.InsightRepository.CreateFromEntity` | backend/infrastructure/db/repositories.py:146-160 | stages as `InsightCreateFromEntity` says |
| `Repositories.InsightRepository.Exists` | backend/infrastructure/db/repositories.py:162-173 | the loop's count of matching rows is positive iff `InsightExists` |
| `Interactors.MessageBroker.Publish` | backend/application/lead/interactors.py:40-45 | the message is appended to what was published |
| `Interactors.InsightGenerator.Gen` | backend/application/lead/interactors.py:67 | the next answer of the stream is returned and one more call is counted |
| `Interactors.CreateLeadStep` | backend/application/lead/interactors.py:26-46 | a known key is refused before the DTO is touched; any failure leaves the tables and the broker alone; success records exactly the key and publishes one event with the normalized note and its digest |
| `Interactors.ValidatedLeadStep` | backend/application/lead/interactors.py:33-46 | a validation error writes and publishes nothing; otherwise the lead is persisted |
| `Interactors.PersistLeadStep` | backend/application/lead/interactors.py:35-46 | any failure leaves the tables as they were; success adds the key and publishes exactly one event |
| `Interactors.AcceptedLeadFitsColumns` | backend/infrastructure/db/models.py:39-43 | an acceptable lead fits the lead table's varchar columns |
| `Interactors.AddLeadKeepsConsistent` | backend/application/lead/interactors.py:35-38 | adding a lead under a new id, with any set of keys, keeps the tables consistent |
| `Interactors.NoInsightsForUnknownLead` | backend/infrastructure/db/models.py:62-63 | in consistent tables a lead id that is not stored has no insights, under any hash |
| `Interactors.CreateLeadSucceedsIff` | backend/application/lead/interactors.py:27-37 | `create_lead` succeeds iff the key is new, the stripped lead is acceptable and the id is free (a field holding U+0000 is not covered) |
| `Interactors.CreateLeadEffects` | backend/application/lead/interactors.py:35-46 | success adds exactly the normalized lead with the server's time and exactly the key, leaves the insights alone, returns the lead with no insights, and keeps the tables consistent |
| `Interactors.PersistLeadEffects` | backend/application/lead/interactors.py:35-46 | the same from the point where the DTO has passed validation |
| `Interactors.CreateInsightStep` | backend/application/lead/interactors.py:60-76 | a validation error or an existing (lead, hash) pair is refused without asking the generator or writing; otherwise exactly one insight is appended, under the request's lead and carrying the request's hash |
| `Interactors.ValidatedInsightStep` | backend/application/lead/interactors.py:61-76 | the same after validation |
| `Interactors.CreateInsightStoresAnswer` | backend/application/lead/interactors.py:67-75 | a stored insight carries the generator's intent, priority, next_action, confidence and tags |
| `Interactors.ValidatedInsightStoresAnswer` | backend/application/lead/interactors.py:67-75 | the same from the point where the DTO has passed validation |
| `Interactors.StoreInsightStep` | backend/application/lead/interactors.py:67-76 | the generator is asked; on success one row is appended: the generator's answer with its content_hash replaced by the request's, under the request's lead |
| `Interactors.RepeatedInsightRejected` | backend/application/lead/interactors.py:63-65 | once a request has been stored, the same request is refused as a duplicate, without asking the generator or writing |
| `Interactors.CreateInsightPreservesConsistency` | backend/application/lead/interactors.py:60-76 | `create_insight` keeps the tables consistent: never two insights with the same lead and hash |
| `Interactors.StoreInsightKeepsConsistent` | backend/application/lead/interactors.py:67-76 | storing an answer for a pair not yet stored keeps the tables consistent |
| `Interactors.AppendInsightKeepsConsistent` | backend/application/lead/interactors.py:71-75 | appending a row for a stored lead, with a new id and a new (lead, hash) pair, keeps the tables consistent |
| `Interactors.StoreInsightSucceeds` | backend/application/lead/interactors.py:67-75 | a well-formed answer for a stored lead under a free id is stored, under that lead and the request's hash (a hash holding U+0000 is not covered) |
| `Interactors.WellFormedDraft` | backend/infrastructure/db/repositories.py:121-145 | a well-formed answer reads as a draft the flush accepts, with the request's hash |
| `Interactors.EventRequest` | backend/handlers/rabbitmq/worker.py:81-93 | the worker's request reads back as the event's lead id and carries its content and hash |
| `Interactors.EventRequestReadable` | backend/handlers/rabbitmq/worker.py:81-93 | for a stripped note and a digest, the request is already in the form validation leaves it |
| `Interactors.PublishedEventCreatesOneInsight` | backend/application/lead/interactors.py:39-76 | the event of a successful `create_lead`, handed to `create_insight`, stores exactly one insight for the new lead under the note's digest |
| `Interactors.NewLeadRequestStored` | backend/application/lead/interactors.py:35-76 | the same for any normalized request naming the new lead with the event's content and hash |
| `Interactors.NewLeadReady` | backend/application/lead/interactors.py:35-45 | after a successful `create_lead` the new lead is stored with no insights and its event carries its non-empty note |
| `Interactors.RequestStored` | backend/application/lead/interactors.py:60-76 | a normalized, non-blank request for a stored lead with no insight of its hash is stored (a hash holding U+0000 is not covered) |
| `Interactors.AcceptedRequestStored` | backend/application/lead/interactors.py:61-66 | such a request passes validation and the duplicate check and goes straight to the generator |
| `Interactors.StripHexEnds` | backend/application/lead/validators.py:74-76 | a string starting and ending with a hexadecimal digit is unchanged by `strip` |
| `Interactors.StripDigest` | backend/application/lead/validators.py:76 | a digest is unchanged by `strip` |
| `Interactors.StripCanonical` | backend/application/lead/validators.py:75 | the canonical text of a UUID is unchanged by `strip` |
| `Interactors.GetLeadResult` | backend/application/lead/interactors.py:82-84 | an unknown id raises `LeadNotFoundException`; a stored lead comes back with its row's columns and its insights in stored order |
| `Interactors.GetLeadAfterCreateLead` | backend/application/lead/interactors.py:82-84 | `get_lead` of the new id returns exactly what `create_lead` returned |
| `Interactors.GetLeadAfterPersist` | backend/application/lead/interactors.py:82-84 | the same from the point where the DTO has passed validation |
| `Interactors.RunLeads` | backend/application/lead/interactors.py:26-46 | serving requests in order never forgets a key |
| `Interactors.RunOneMore` | backend/application/lead/interactors.py:37-38 | serving one more request keeps every recorded key |
| `Interactors.KeysOnlyGrow` | backend/application/lead/interactors.py:37-38 | the recorded keys only grow along a sequence of requests |
| `Interactors.KeyRecorded` | backend/application/lead/interactors.py:35-38 | a request that succeeds leaves its normalized key recorded |
| `Interactors.AtMostOneLeadPerKey` | backend/application/lead/interactors.py:27-38 | after a request succeeds, every later request with a key normalizing to the same UUID is refused and publishes nothing |
| `Interactors.CreateLeadInteractor.CreateLead` | backend/application/lead/interactors.py:26-46 | result, DTO, committed tables and published events are those of `CreateLeadStep` |
| `Interactors.CreateLeadInteractor.PersistIfValid` | backend/application/lead/interactors.py:33-46 | those of `ValidatedLeadStep` |
| `Interactors.CreateLeadInteractor.Persist` | backend/application/lead/interactors.py:35-46 | those of `PersistLeadStep` |
| `Interactors.CreateInsightInteractor.CreateInsight` | backend/application/lead/interactors.py:60-76 | result, DTO and committed tables are those of `CreateInsightStep`; a stored insight carries the generator's classification under the request's lead and hash; the generator is asked exactly when the step says so |
| `Interactors.CreateInsightInteractor.CreateIfValid` | backend/application/lead/interactors.py:61-76 | those of `ValidatedInsightStep`, including the generator's classification on a stored insight |
| `Interactors.CreateInsightInteractor.Store` | backend/application/lead/interactors.py:67-76 | those of `StoreInsightStep`: the generator's answer stored under the request's lead and hash; the generator is asked once |
| `Interactors.GetLeadInteractor.GetLead` | backend/application/lead/interactors.py:82-84 | returns `GetLeadResult` of the flushed tables: `LeadNotFoundException` for an unknown id, otherwise the row's columns and its insights in stored order; the id is a `Uuid`, so the `ValueError` for text that is not a UUID is stated by `Repositories.LeadGet` |

## Left out

- Transport: the HTTP handlers, the RabbitMQ worker's message handling (JSON
  decoding, acknowledgement and requeueing) and the broker's JSON encoding
  and network publishing. The event is a record. `Interactors.EventRequest`
  models only how the worker builds its request, with the lead id as
  `str(uuid)`.
- The occurred-at time as ISO text. Times are plain numbers (`Timestamp`).
- Floating point: confidence is a `real`.
- `float(x)` of a numeric string, and booleans: `ToFloat` accepts only
  numbers.
- `Uuids.Parse`: only plain hexadecimal digits are read. Python's
  `int(x, 16)` also accepts surrounding whitespace, a sign, a "0x" prefix,
  underscores between digits and non-ASCII digits. For such text (for
  example a leading space and 31 digits) `Parse` gives None, so
  `NormalizeKey` falls back to `uuid5`.
- `strip` and `isdigit` use explicit character sets: Python's whitespace
  characters, and the ASCII digits.
- Concurrency: the check-then-insert races on keys and insights, and the
  missing unique constraint on an insight's (lead id, content hash). Insight
  uniqueness is proved for sequential calls only.
- SHA-256, `uuid5` and `uuid4` are parameters, not computed. Row ids and
  times are supplied by the caller.
- Payloads given to `LeadRepository.create` with the keys id, created_at or
  insights: the model treats every key outside the five string columns as
  unknown.
- SQL row order: a lead's insights are listed in insertion order.
- Rollback: after a failed flush the model's staged tables are as before the
  failed call. The committed tables, which are what the contracts speak
  about, are unchanged.
- The request context that supplies the idempotency key is a parameter of
  `CreateLead`.
- The production generator draws random answers. Here it is a stream of
  answers fixed in advance that ignores the content.
- `Interactors.PublishedEventCreatesOneInsight` assumes the generator's answer
  is well formed (`WellFormedInsightData`). It also assumes the insight id is
  free.
- `Repositories.LeadCreate`: two rules PostgreSQL applies to text are not
  modelled. A string holding the character U+0000 cannot be stored in a
  text or varchar column, so the program's flush raises where the model
  stages the lead. A varchar value that is too long only because of trailing
  spaces is truncated and stored, where the model gives `DatabaseError`.
- `Repositories.InsightFlush`: the same two rules for the content hash
  and tag strings. A hash or a tag holding U+0000 is refused by the program
  (`tags` is an array of strings), and a hash whose excess over 64
  characters is all spaces is truncated and stored.
- `Repositories.InsightExists`: a content hash holding U+0000 makes the
  program's count query raise; the model answers with a boolean.
- `Interactors.CreateLeadSucceedsIff`: its "iff" does not cover a note,
  email, phone, name or source holding U+0000, for which the program's flush
  raises. The interactor strips its input first, so trailing spaces do not
  reach the database through this path.
- `Interactors.StoreInsightSucceeds`: a request hash holding U+0000 is
  stored in the model but refused by the program.
- `Interactors.RequestStored`: the same; for a hash holding U+0000 the
  program's `exists` query raises before anything is stored.
- `Interactors.GetLeadInteractor.GetLead`: it takes a `Uuid`, as the
  `lead_id: UUID` annotation says. Callers that pass text which is not a
  UUID get the `ValueError` of `LeadRepository.get`; that path is modelled
  by `Repositories.LeadGet` and not through `GetLead`.
- `Validate` is split into helper methods (`Normalize`, `Errors`, `Check`)
  that follow the blocks of the source method.
