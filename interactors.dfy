/**
 * The three use cases (backend/application/lead/interactors.py): creating a
 * lead under an idempotency key, creating the insight for a published lead
 * event, and reading a lead back. Each use case is a method of a class over
 * the repositories, the session, the message broker and the insight
 * generator, proved against a step function from the committed tables to
 * the result, the new committed tables and what was published.
 */
module Interactors {
  import opened Wrappers
  import opened PyStrings
  import opened Uuids
  import opened Entities
  import opened Exceptions
  import opened Dto
  import opened Validators
  import opened Repositories

  /** `hashlib.sha256(...).hexdigest()`: 64 lower-case hexadecimal digits. */
  type Digest = s: string | |s| == 64 && All(s, IsLowerHexDigit) witness ToHex(0, 64)

  /** The message `create_lead` publishes: lead_id, content_hash, occurred_at and content. */
  datatype LeadCreatedEvent = LeadCreatedEvent(leadId: Uuid, contentHash: string, occurredAt: Timestamp, content: string)

  /** A `MessageBroker`: what it has been given to publish, in order. */
  class MessageBroker {
    var published: seq<LeadCreatedEvent>

    constructor ()
      ensures published == []
    {
      published := [];
    }

    method Publish(message: LeadCreatedEvent)
      modifies this
      ensures published == old(published) + [message]
    {
      published := published + [message];
    }
  }

  /**
   * An `InsightGenerator`: its answers are a stream fixed in advance (the
   * production generator draws them at random and ignores the content), and
   * `calls` counts how many of them have been drawn.
   */
  class InsightGenerator {
    const outputs: nat -> map<string, Value>
    var calls: nat

    constructor (outputs: nat -> map<string, Value>)
      ensures this.outputs == outputs && calls == 0
    {
      this.outputs := outputs;
      calls := 0;
    }

    method Gen(content: string) returns (data: map<string, Value>)
      modifies this
      ensures data == outputs(old(calls)) && calls == old(calls) + 1
    {
      data := outputs(calls);
      calls := calls + 1;
    }
  }

  /**
   * A mapping the repository can store: the three enumeration values name
   * members, a confidence (when given) is a number in [0, 1], and tags (when
   * given) are a list of strings or None. The production generator's answers
   * have this shape.
   */
  predicate WellFormedInsightData(data: map<string, Value>) {
    && "intent" in data && data["intent"].VStr? && IntentOf(data["intent"].str).Some?
    && "priority" in data && data["priority"].VStr? && PriorityOf(data["priority"].str).Some?
    && "next_action" in data && data["next_action"].VStr? && NextActionOf(data["next_action"].str).Some?
    && ("confidence" in data ==> data["confidence"].VReal? && 0.0 <= data["confidence"].num <= 1.0)
    && ("tags" in data ==> data["tags"].VNone? || data["tags"].VStrList?)
  }

  /**
   * The tables are consistent: a lead is stored under its own id, every
   * insight's lead exists, insight ids are distinct, and no two insights
   * share both a lead and a content hash.
   */
  predicate Consistent(t: Tables) {
    && (forall u :: u in t.leads ==> t.leads[u].id == u)
    && (forall i :: 0 <= i < |t.insights| ==> t.insights[i].leadId in t.leads)
    && (forall i, j :: 0 <= i < j < |t.insights| ==> t.insights[i].id != t.insights[j].id)
    && (forall i, j :: 0 <= i < j < |t.insights| ==>
          t.insights[i].leadId != t.insights[j].leadId || t.insights[i].contentHash != t.insights[j].contentHash)
  }

  /* ---------- create_lead ---------- */

  /** What one `create_lead` call leaves behind: its result, the committed tables, the events published and the DTO. */
  datatype LeadStep = LeadStep(result: Result<LeadOut, Error>, tables: Tables, events: seq<LeadCreatedEvent>, dto: LeadFields)

  /**
   * `create_lead` from committed tables `t`: a key already recorded is
   * rejected before the DTO is touched; otherwise the DTO is normalized and
   * validated, the lead and the key are staged and committed together, the
   * event carrying the normalized note and its digest is published, and the
   * new lead is returned. Any failure leaves the committed tables as they
   * were and publishes nothing.
   */
  function CreateLeadStep(t: Tables, f: LeadFields, key: string, newId: Uuid, now: Timestamp,
    uuid5: string -> Uuid, sha256: string -> Digest): (s: LeadStep)
    ensures NormalizeKey(key, uuid5) in t.keys ==> s == LeadStep(Err(LeadAlreadyExists), t, [], f)
    ensures NormalizeKey(key, uuid5) !in t.keys ==> s.dto == NormalizeLead(f)
    ensures s.result.Err? ==> s.tables == t && s.events == []
    ensures s.tables.keys == if s.result.Ok? then t.keys + {NormalizeKey(key, uuid5)} else t.keys
    ensures s.result.Ok? ==>
      && s.events == [LeadCreatedEvent(newId, sha256(s.dto.note), now, s.dto.note)]
      && s.result.value.id == newId && s.result.value.createdAt == Some(now)
  {
    var k := NormalizeKey(key, uuid5);
    if k in t.keys then LeadStep(Err(LeadAlreadyExists), t, [], f)
    else
      var g := NormalizeLead(f);
      ValidatedLeadStep(t, g, LeadOutcome(g), k, newId, now, sha256)
  }

  /**
   * The part of `create_lead` after the key check, `g` being the normalized
   * DTO and `outcome` what validating it gave.
   */
  function ValidatedLeadStep(t: Tables, g: LeadFields, outcome: Result<(), Error>, k: Uuid, newId: Uuid,
    now: Timestamp, sha256: string -> Digest): (s: LeadStep)
    ensures s.dto == g
    ensures s.result.Err? ==> s.tables == t && s.events == []
    ensures s.tables.keys == if s.result.Ok? then t.keys + {k} else t.keys
    ensures s.result.Ok? ==>
      && s.events == [LeadCreatedEvent(newId, sha256(g.note), now, g.note)]
      && s.result.value.id == newId && s.result.value.createdAt == Some(now)
  {
    match outcome
    case Err(e) => LeadStep(Err(e), t, [], g)
    case Ok(_) => PersistLeadStep(t, g, k, newId, now, sha256)
  }

  /**
   * The part of `create_lead` after validation: stage the lead and the key,
   * commit both, publish the event and return the lead.
   */
  function PersistLeadStep(t: Tables, g: LeadFields, k: Uuid, newId: Uuid, now: Timestamp, sha256: string -> Digest)
    : (s: LeadStep)
    ensures s.dto == g
    ensures s.result.Err? ==> s.tables == t && s.events == []
    ensures s.tables.keys == if s.result.Ok? then t.keys + {k} else t.keys
    ensures s.result.Ok? ==>
      && s.events == [LeadCreatedEvent(newId, sha256(g.note), now, g.note)]
      && s.result.value.id == newId && s.result.value.createdAt == Some(now)
  {
    var (created, t1) := LeadCreate(t, LeadPayload(g), newId, now);
    match created
    case Err(e) => LeadStep(Err(e), t, [], g)
    case Ok(lead) =>
      var (stored, t2) := KeyCreate(t1, k);
      match stored
      case Err(e) => LeadStep(Err(e), t, [], g)
      case Ok(_) =>
        LeadStep(Ok(FromModel(EntityView(lead))), t2,
          [LeadCreatedEvent(lead.id, sha256(g.note), lead.createdAt.value, g.note)], g)
  }

  /** Past the key check, `create_lead` is the validated step on the normalized DTO. */
  lemma CreateLeadAfterKeyCheck(t: Tables, f: LeadFields, key: string, newId: Uuid, now: Timestamp,
    uuid5: string -> Uuid, sha256: string -> Digest)
    requires NormalizeKey(key, uuid5) !in t.keys
    ensures CreateLeadStep(t, f, key, newId, now, uuid5, sha256)
      == ValidatedLeadStep(t, NormalizeLead(f), LeadOutcome(NormalizeLead(f)), NormalizeKey(key, uuid5), newId, now, sha256)
  {
  }

  /** A lead that passes validation fits the lead table's varchar columns. */
  lemma AcceptedLeadFitsColumns(g: LeadFields, newId: Uuid, now: Timestamp)
    requires LeadAcceptable(g)
    ensures LeadRowFits(LeadRowOf(LeadPayload(g), newId, now))
  {
    var row := LeadRowOf(LeadPayload(g), newId, now);
    assert row.email == g.email && row.phone == g.phone && row.name == g.name && row.source == g.source;
  }

  /**
   * `create_lead` succeeds exactly when the idempotency key is new, the
   * normalized DTO is acceptable and the new id is not taken.
   */
  lemma CreateLeadSucceedsIff(t: Tables, f: LeadFields, key: string, newId: Uuid, now: Timestamp,
    uuid5: string -> Uuid, sha256: string -> Digest)
    ensures CreateLeadStep(t, f, key, newId, now, uuid5, sha256).result.Ok? <==>
      NormalizeKey(key, uuid5) !in t.keys && LeadAcceptable(NormalizeLead(f)) && newId !in t.leads
  {
    var g := NormalizeLead(f);
    LeadOutcomeMatches(g);
    if NormalizeKey(key, uuid5) !in t.keys && LeadAcceptable(g) && newId !in t.leads {
      AcceptedLeadFitsColumns(g, newId, now);
    }
  }

  /**
   * A successful `create_lead` adds exactly one lead (the normalized DTO,
   * stamped with the server's time) and one key, leaves the insights alone,
   * and returns the stored lead with no insights when the tables were
   * consistent.
   */
  lemma CreateLeadEffects(t: Tables, f: LeadFields, key: string, newId: Uuid, now: Timestamp,
    uuid5: string -> Uuid, sha256: string -> Digest)
    requires Consistent(t)
    requires CreateLeadStep(t, f, key, newId, now, uuid5, sha256).result.Ok?
    ensures var s := CreateLeadStep(t, f, key, newId, now, uuid5, sha256);
      var g := NormalizeLead(f);
      && newId !in t.leads
      && s.tables == Tables(t.leads[newId := LeadRow(newId, g.note, g.email, g.phone, g.name, g.source, now)],
           t.insights, t.keys + {NormalizeKey(key, uuid5)})
      && s.result.value == LeadOut(newId, g.note, Some(now), g.email, g.phone, g.name, g.source, [])
      && Consistent(s.tables)
  {
    var g := NormalizeLead(f);
    var k := NormalizeKey(key, uuid5);
    assert CreateLeadStep(t, f, key, newId, now, uuid5, sha256) == PersistLeadStep(t, g, k, newId, now, sha256);
    PersistLeadEffects(t, g, k, newId, now, sha256);
  }

  /** The effects of a successful `create_lead`, from the point where the DTO has passed validation. */
  lemma PersistLeadEffects(t: Tables, g: LeadFields, k: Uuid, newId: Uuid, now: Timestamp, sha256: string -> Digest)
    requires Consistent(t)
    requires PersistLeadStep(t, g, k, newId, now, sha256).result.Ok?
    ensures var s := PersistLeadStep(t, g, k, newId, now, sha256);
      && newId !in t.leads
      && s.tables == Tables(t.leads[newId := LeadRow(newId, g.note, g.email, g.phone, g.name, g.source, now)],
           t.insights, t.keys + {k})
      && s.result.value == LeadOut(newId, g.note, Some(now), g.email, g.phone, g.name, g.source, [])
      && Consistent(s.tables)
  {
    var s := PersistLeadStep(t, g, k, newId, now, sha256);
    NoInsightsForUnknownLead(t, newId);
    var row := LeadRow(newId, g.note, g.email, g.phone, g.name, g.source, now);
    assert LeadRowOf(LeadPayload(g), newId, now) == row;
    AddLeadKeepsConsistent(t, row, t.keys + {k});
  }

  /** Storing a lead under a new id, its own, keeps the tables consistent. */
  lemma AddLeadKeepsConsistent(t: Tables, row: LeadRow, keys: set<Uuid>)
    requires Consistent(t) && row.id !in t.leads
    ensures Consistent(Tables(t.leads[row.id := row], t.insights, keys))
  {
  }

  /** In consistent tables, a lead id that is not stored has no insights. */
  lemma NoInsightsForUnknownLead(t: Tables, u: Uuid)
    requires Consistent(t) && u !in t.leads
    ensures LeadInsights(t.insights, u) == []
    ensures forall hash :: !HasInsight(t.insights, u, hash)
  {
    NoLeadInsights(t.insights, u);
  }

  /* ---------- create_insight ---------- */

  /** What one `create_insight` call leaves behind, and whether it drew on the generator. */
  datatype InsightStep = InsightStep(result: Result<InsightEntity, Error>, tables: Tables, dto: InsightFields, generated: bool)

  /**
   * `create_insight` from committed tables `t`, `data` being the generator's
   * next answer: the DTO is normalized and validated; an insight with the same
   * lead id and hash is refused before the generator is asked; otherwise the
   * answer, with its content_hash replaced by the DTO's, is stored and
   * committed.
   */
  function CreateInsightStep(t: Tables, f: InsightFields, data: map<string, Value>, newId: Uuid, now: Timestamp)
    : (s: InsightStep)
    ensures s.dto == NormalizeInsight(f)
    ensures InsightOutcome(s.dto).Err? ==> s.result == Err(InsightOutcome(s.dto).error) && !s.generated
    ensures InsightOutcome(s.dto).Ok? && InsightExists(t, s.dto.leadId, s.dto.contentHash) ==>
      s.result == Err(InsightAlreadyExists) && !s.generated
    ensures s.generated <==> InsightOutcome(s.dto).Ok? && !InsightExists(t, s.dto.leadId, s.dto.contentHash)
    ensures s.result.Err? ==> s.tables == t
    ensures s.result.Ok? ==>
      && s.result.value.id == newId && s.result.value.createdAt == Some(now)
      && Parse(s.dto.leadId) == Some(s.result.value.leadId)
      && s.result.value.contentHash == s.dto.contentHash
      && s.tables == t.(insights := t.insights + [InsightEntityRow(s.result.value)])
  {
    var g := NormalizeInsight(f);
    ValidatedInsightStep(t, g, InsightOutcome(g), data, newId, now)
  }

  /**
   * The part of `create_insight` after validation, `g` being the normalized
   * DTO and `outcome` what validating it gave.
   */
  function ValidatedInsightStep(t: Tables, g: InsightFields, outcome: Result<(), Error>, data: map<string, Value>,
    newId: Uuid, now: Timestamp): (s: InsightStep)
    ensures s.dto == g
    ensures outcome.Err? ==> s == InsightStep(Err(outcome.error), t, g, false)
    ensures outcome.Ok? && InsightExists(t, g.leadId, g.contentHash) ==>
      s == InsightStep(Err(InsightAlreadyExists), t, g, false)
    ensures s.generated <==> outcome.Ok? && !InsightExists(t, g.leadId, g.contentHash)
    ensures s.result.Err? ==> s.tables == t
    ensures s.result.Ok? ==>
      && s.result.value.id == newId && s.result.value.createdAt == Some(now)
      && Parse(g.leadId) == Some(s.result.value.leadId)
      && s.result.value.contentHash == g.contentHash
      && s.tables == t.(insights := t.insights + [InsightEntityRow(s.result.value)])
  {
    match outcome
    case Err(e) => InsightStep(Err(e), t, g, false)
    case Ok(_) =>
      if InsightExists(t, g.leadId, g.contentHash) then InsightStep(Err(InsightAlreadyExists), t, g, false)
      else StoreInsightStep(t, g, data, newId, now)
  }

  /** The part of `create_insight` that asks the generator and stores its answer under the DTO's hash. */
  function StoreInsightStep(t: Tables, g: InsightFields, data: map<string, Value>, newId: Uuid, now: Timestamp)
    : (s: InsightStep)
    ensures s.dto == g && s.generated
    ensures s.result.Err? ==> s.tables == t
    ensures s.result.Ok? ==>
      && s.result.value.id == newId && s.result.value.createdAt == Some(now)
      && Parse(g.leadId) == Some(s.result.value.leadId)
      && s.result.value.contentHash == g.contentHash
      && s.tables == t.(insights := t.insights + [InsightEntityRow(s.result.value)])
    ensures s.result.Ok? ==> ClassifiedAs(s.result.value, data)
  {
    var data' := data["content_hash" := VStr(g.contentHash)];
    var (created, t1) := InsightCreate(t, g.leadId, data', newId, now);
    if created.Ok? then
      InsightCreateChecks(t, g.leadId, data', newId, now);
      ClassifiedAsIgnoresHash(created.value, data, VStr(g.contentHash));
      InsightStep(created, t1, g, true)
    else InsightStep(created, t1, g, true)
  }

  /**
   * What `create_insight` stores is the generator's answer: the stored
   * intent, priority, next_action, confidence and tags are the answer's, as
   * well as the lead and hash of the request.
   */
  lemma CreateInsightStoresAnswer(t: Tables, f: InsightFields, data: map<string, Value>, newId: Uuid, now: Timestamp)
    ensures var s := CreateInsightStep(t, f, data, newId, now);
      s.result.Ok? ==> ClassifiedAs(s.result.value, data)
  {
    var g := NormalizeInsight(f);
    CreateInsightAfterValidation(t, f, data, newId, now);
    ValidatedInsightStoresAnswer(t, g, InsightOutcome(g), data, newId, now);
  }

  /** The same for the part of `create_insight` after validation. */
  lemma ValidatedInsightStoresAnswer(t: Tables, g: InsightFields, outcome: Result<(), Error>,
    data: map<string, Value>, newId: Uuid, now: Timestamp)
    ensures var s := ValidatedInsightStep(t, g, outcome, data, newId, now);
      s.result.Ok? ==> ClassifiedAs(s.result.value, data)
  {
  }

  /** `create_insight` is the validated step on the normalized DTO. */
  lemma CreateInsightAfterValidation(t: Tables, f: InsightFields, data: map<string, Value>, newId: Uuid, now: Timestamp)
    ensures CreateInsightStep(t, f, data, newId, now)
      == ValidatedInsightStep(t, NormalizeInsight(f), InsightOutcome(NormalizeInsight(f)), data, newId, now)
  {
  }

  /**
   * Once an insight has been created for a request, the same request is
   * refused as a duplicate, without drawing on the generator and without
   * writing anything.
   */
  lemma RepeatedInsightRejected(t: Tables, f: InsightFields, data: map<string, Value>, newId: Uuid, now: Timestamp,
    data': map<string, Value>, newId': Uuid, now': Timestamp)
    requires CreateInsightStep(t, f, data, newId, now).result.Ok?
    ensures var s := CreateInsightStep(t, f, data, newId, now);
      CreateInsightStep(s.tables, f, data', newId', now') ==
        InsightStep(Err(InsightAlreadyExists), s.tables, NormalizeInsight(f), false)
  {
    var s := CreateInsightStep(t, f, data, newId, now);
    var row := InsightEntityRow(s.result.value);
    assert s.tables.insights[|t.insights|] == row;
  }

  /** `create_insight` keeps the tables consistent: in particular it never stores a second (lead, hash) pair. */
  lemma CreateInsightPreservesConsistency(t: Tables, f: InsightFields, data: map<string, Value>, newId: Uuid, now: Timestamp)
    requires Consistent(t)
    ensures Consistent(CreateInsightStep(t, f, data, newId, now).tables)
  {
    var g := NormalizeInsight(f);
    if InsightOutcome(g).Ok? && !InsightExists(t, g.leadId, g.contentHash) {
      StoreInsightKeepsConsistent(t, g, data, newId, now);
    }
  }

  /** Storing the generator's answer for a (lead, hash) pair not yet stored keeps the tables consistent. */
  lemma StoreInsightKeepsConsistent(t: Tables, g: InsightFields, data: map<string, Value>, newId: Uuid, now: Timestamp)
    requires Consistent(t) && !InsightExists(t, g.leadId, g.contentHash)
    ensures Consistent(StoreInsightStep(t, g, data, newId, now).tables)
  {
    var data' := data["content_hash" := VStr(g.contentHash)];
    var created := InsightCreate(t, g.leadId, data', newId, now).0;
    if created.Ok? {
      InsightCreateChecks(t, g.leadId, data', newId, now);
      AppendInsightKeepsConsistent(t, InsightEntityRow(created.value));
    }
  }

  /**
   * Appending an insight row keeps the tables consistent when its lead is
   * stored, its id is new and its lead has no insight with its hash yet.
   */
  lemma AppendInsightKeepsConsistent(t: Tables, row: InsightRow)
    requires Consistent(t) && row.leadId in t.leads && FreshInsightId(t.insights, row.id)
    requires !HasInsight(t.insights, row.leadId, row.contentHash)
    ensures Consistent(t.(insights := t.insights + [row]))
  {
    var ins := t.insights + [row];
    forall i, j | 0 <= i < j < |ins|
      ensures ins[i].id != ins[j].id
      ensures ins[i].leadId != ins[j].leadId || ins[i].contentHash != ins[j].contentHash
    {
      assert ins[i] == t.insights[i];
      if j < |t.insights| {
        assert ins[j] == t.insights[j];
      }
    }
  }

  /**
   * Storing a well-formed answer for a stored lead, under an insight id not
   * yet taken, succeeds.
   */
  lemma StoreInsightSucceeds(t: Tables, g: InsightFields, u: Uuid, data: map<string, Value>, newId: Uuid, now: Timestamp)
    requires Parse(g.leadId) == Some(u) && u in t.leads
    requires |g.contentHash| <= CONTENT_HASH_COLUMN_WIDTH
    requires WellFormedInsightData(data) && FreshInsightId(t.insights, newId)
    ensures var s := StoreInsightStep(t, g, data, newId, now);
      s.result.Ok? && s.result.value.leadId == u && s.result.value.contentHash == g.contentHash
  {
    var data' := data["content_hash" := VStr(g.contentHash)];
    DraftFromMappingParsed(g.leadId, u, data');
    var d := WellFormedDraft(u, data, g.contentHash);
    assert InsightFlush(t, d, newId, now).0.Ok?;
  }

  /**
   * A well-formed answer, its content_hash set to `hash`, reads as a draft the
   * flush accepts apart from the lead and the insight id.
   */
  lemma WellFormedDraft(u: Uuid, data: map<string, Value>, hash: string) returns (d: InsightDraft)
    requires WellFormedInsightData(data)
    ensures DraftFields(u, data["content_hash" := VStr(hash)]) == Ok(d)
    ensures d.leadId == u && 0.0 <= d.confidence <= 1.0 && (d.tags.VNone? || d.tags.VStrList?)
    ensures d.contentHash == VStr(hash)
  {
    var data' := data["content_hash" := VStr(hash)];
    assert data'["intent"] == data["intent"] && data'["priority"] == data["priority"];
    assert data'["next_action"] == data["next_action"];
    d := DraftFields(u, data').value;
  }

  /* ---------- the worker's view of a lead event ---------- */

  /**
   * The insight request the worker builds from a published event: the
   * content, the lead id as the broker serializes it (`str` of the UUID) and
   * the content hash.
   */
  function EventRequest(e: LeadCreatedEvent): (f: InsightFields)
    ensures Parse(f.leadId) == Some(e.leadId)
    ensures f.content == e.content && f.contentHash == e.contentHash
  {
    ParseToString(e.leadId);
    InsightFields(e.content, ToString(e.leadId), e.contentHash)
  }

  /** Text whose first and last characters are hexadecimal digits is unchanged by `strip`. */
  lemma StripHexEnds(s: string)
    requires s != [] && IsLowerHexDigit(s[0]) && IsLowerHexDigit(s[|s| - 1])
    ensures Strip(s) == s
  {
    StripTrimmed(s, IsSpace);
  }

  /**
   * The event a successful `create_lead` publishes, handed to the worker,
   * yields an insight for the new lead carrying the event's hash, when the
   * generator answers with a storable mapping and the insight id is new.
   * (Handing the same event over again is then refused as a duplicate:
   * `RepeatedInsightRejected`.)
   */
  lemma PublishedEventCreatesOneInsight(t: Tables, f: LeadFields, key: string, newId: Uuid, now: Timestamp,
    uuid5: string -> Uuid, sha256: string -> Digest,
    data: map<string, Value>, insightId: Uuid, later: Timestamp)
    requires Consistent(t)
    requires CreateLeadStep(t, f, key, newId, now, uuid5, sha256).result.Ok?
    requires WellFormedInsightData(data)
    requires FreshInsightId(t.insights, insightId)
    ensures var s := CreateLeadStep(t, f, key, newId, now, uuid5, sha256);
      var i := CreateInsightStep(s.tables, EventRequest(s.events[0]), data, insightId, later);
      && i.result.Ok? && i.generated
      && i.result.value.leadId == newId && i.result.value.contentHash == sha256(s.dto.note)
  {
    var s := CreateLeadStep(t, f, key, newId, now, uuid5, sha256);
    StripIdempotent(f.note, IsSpace);
    EventRequestReadable(s.events[0]);
    NewLeadRequestStored(t, f, key, newId, now, uuid5, sha256, EventRequest(s.events[0]), data, insightId, later);
  }

  /**
   * After a successful `create_lead`, any insight request in normal form
   * whose lead id text names the new lead and whose content and hash are the
   * event's is stored, under the same conditions on the generator's answer
   * and the insight id.
   */
  lemma NewLeadRequestStored(t: Tables, f: LeadFields, key: string, newId: Uuid, now: Timestamp,
    uuid5: string -> Uuid, sha256: string -> Digest, request: InsightFields,
    data: map<string, Value>, insightId: Uuid, later: Timestamp)
    requires Consistent(t)
    requires CreateLeadStep(t, f, key, newId, now, uuid5, sha256).result.Ok?
    requires var e := CreateLeadStep(t, f, key, newId, now, uuid5, sha256).events[0];
      && NormalizeInsight(request) == request && Parse(request.leadId) == Some(e.leadId)
      && request.content == e.content && request.contentHash == e.contentHash
    requires WellFormedInsightData(data)
    requires FreshInsightId(t.insights, insightId)
    ensures var s := CreateLeadStep(t, f, key, newId, now, uuid5, sha256);
      var i := CreateInsightStep(s.tables, request, data, insightId, later);
      && i.result.Ok? && i.generated
      && i.result.value.leadId == newId && i.result.value.contentHash == sha256(s.dto.note)
  {
    var s := CreateLeadStep(t, f, key, newId, now, uuid5, sha256);
    NewLeadReady(t, f, key, newId, now, uuid5, sha256);
    InsightExistsParsed(s.tables, request.leadId, newId, request.contentHash);
    RequestStored(s.tables, request, newId, data, insightId, later);
  }

  /**
   * After a successful `create_lead` from consistent tables, the new lead is
   * stored with no insights, the insights are those of before, and the event
   * carries the lead's non-empty note.
   */
  lemma NewLeadReady(t: Tables, f: LeadFields, key: string, newId: Uuid, now: Timestamp,
    uuid5: string -> Uuid, sha256: string -> Digest)
    requires Consistent(t)
    requires CreateLeadStep(t, f, key, newId, now, uuid5, sha256).result.Ok?
    ensures var s := CreateLeadStep(t, f, key, newId, now, uuid5, sha256);
      && newId in s.tables.leads && s.tables.insights == t.insights
      && (forall hash :: !HasInsight(s.tables.insights, newId, hash))
      && s.dto.note != [] && s.events == [LeadCreatedEvent(newId, sha256(s.dto.note), now, s.dto.note)]
  {
    CreateLeadSucceedsIff(t, f, key, newId, now, uuid5, sha256);
    CreateLeadEffects(t, f, key, newId, now, uuid5, sha256);
    NoInsightsForUnknownLead(t, newId);
  }

  /**
   * The request the worker builds from an event whose content is already
   * stripped and whose hash is a digest is in normal form, and its lead id
   * text reads back as the event's lead id.
   */
  lemma EventRequestReadable(e: LeadCreatedEvent)
    requires Strip(e.content) == e.content
    requires |e.contentHash| == 64 && All(e.contentHash, IsLowerHexDigit)
    ensures var request := EventRequest(e);
      && NormalizeInsight(request) == request && Parse(request.leadId) == Some(e.leadId)
      && request.content == e.content && request.contentHash == e.contentHash
  {
    StripCanonical(e.leadId);
    StripDigest(e.contentHash);
  }

  /**
   * A request that normalization leaves alone, with no blank field, naming a
   * stored lead that has no insight with its hash yet, and carrying a hash
   * that fits its column, is stored when the generator's answer is
   * well-formed and the insight id is new.
   */
  lemma RequestStored(t: Tables, f: InsightFields, u: Uuid, data: map<string, Value>, newId: Uuid, now: Timestamp)
    requires NormalizeInsight(f) == f && f.content != [] && f.contentHash != []
    requires Parse(f.leadId) == Some(u) && u in t.leads
    requires !InsightExists(t, f.leadId, f.contentHash) && |f.contentHash| <= CONTENT_HASH_COLUMN_WIDTH
    requires WellFormedInsightData(data) && FreshInsightId(t.insights, newId)
    ensures var i := CreateInsightStep(t, f, data, newId, now);
      && i.result.Ok? && i.generated
      && i.result.value.leadId == u && i.result.value.contentHash == f.contentHash
  {
    StoreInsightSucceeds(t, f, u, data, newId, now);
    AcceptedRequestStored(t, f, data, newId, now);
  }

  /**
   * A request that normalization leaves alone, with no blank field and no
   * insight stored yet for its lead id and hash, passes validation and the
   * duplicate check, so `create_insight` goes straight to asking the
   * generator and storing.
   */
  lemma AcceptedRequestStored(t: Tables, f: InsightFields, data: map<string, Value>, newId: Uuid, now: Timestamp)
    requires NormalizeInsight(f) == f
    requires f.content != [] && f.leadId != [] && f.contentHash != []
    requires !InsightExists(t, f.leadId, f.contentHash)
    ensures CreateInsightStep(t, f, data, newId, now) == StoreInsightStep(t, f, data, newId, now)
  {
    assert InsightOutcome(f) == Ok(());
  }

  /** A digest has no surrounding whitespace. */
  lemma StripDigest(s: string)
    requires |s| == 64 && All(s, IsLowerHexDigit)
    ensures Strip(s) == s
  {
    assert IsLowerHexDigit(s[0]) && IsLowerHexDigit(s[63]);
    StripHexEnds(s);
  }

  /** The canonical text of a UUID has no surrounding whitespace. */
  lemma StripCanonical(u: Uuid)
    ensures Strip(ToString(u)) == ToString(u)
  {
    var h := ToHex(u, 32);
    var s := ToString(u);
    assert s[0] == h[0];
    assert s[35] == h[31];
    StripHexEnds(s);
  }

  /* ---------- get_lead ---------- */

  /**
   * `get_lead`: the repository's `get` of `str(lead_id)`, through
   * `LeadOutDTO.from_model`. An unknown id raises `LeadNotFoundException`; a
   * stored lead comes back with its row's columns and its insights in stored
   * order.
   */
  function GetLeadResult(t: Tables, leadId: Uuid): (r: Result<LeadOut, Error>)
    ensures leadId !in t.leads ==> r == Err(LeadNotFound)
    ensures leadId in t.leads ==>
      var row := t.leads[leadId];
      r == Ok(LeadOut(row.id, row.note, Some(row.createdAt), row.email, row.phone, row.name,
        row.source, InsightsToEntities(LeadInsights(t.insights, row.id))))
  {
    LeadGetById(t, leadId);
    match LeadGet(t, ToString(leadId))
    case Err(e) => Err(e)
    case Ok(lead) => FromEntity(lead); Ok(FromModel(EntityView(lead)))
  }

    /** What `create_lead` returns is what `get_lead` later returns for the new id. */
  lemma GetLeadAfterCreateLead(t: Tables, f: LeadFields, key: string, newId: Uuid, now: Timestamp,
    uuid5: string -> Uuid, sha256: string -> Digest)
    requires CreateLeadStep(t, f, key, newId, now, uuid5, sha256).result.Ok?
    ensures var s := CreateLeadStep(t, f, key, newId, now, uuid5, sha256);
      GetLeadResult(s.tables, newId) == s.result
  {
    var g := NormalizeLead(f);
    var k := NormalizeKey(key, uuid5);
    assert CreateLeadStep(t, f, key, newId, now, uuid5, sha256) == PersistLeadStep(t, g, k, newId, now, sha256);
    GetLeadAfterPersist(t, g, k, newId, now, sha256);
  }

  lemma GetLeadAfterPersist(t: Tables, g: LeadFields, k: Uuid, newId: Uuid, now: Timestamp, sha256: string -> Digest)
    requires PersistLeadStep(t, g, k, newId, now, sha256).result.Ok?
    ensures var s := PersistLeadStep(t, g, k, newId, now, sha256);
      GetLeadResult(s.tables, newId) == s.result
  {
    var (created, t1) := LeadCreate(t, LeadPayload(g), newId, now);
    var t2 := KeyCreate(t1, k).1;
    GetAfterCreate(t, LeadPayload(g), newId, now);
    LeadGetById(t1, newId);
    LeadGetById(t2, newId);
  }

  /* ---------- sequences of create_lead calls ---------- */

  /** One `create_lead` call: the DTO, the idempotency key, and the id and time the system supplies. */
  datatype LeadRequest = LeadRequest(fields: LeadFields, key: string, newId: Uuid, now: Timestamp)

  /** The committed tables after serving `requests` one after the other from `t`. */
  function RunLeads(t: Tables, requests: seq<LeadRequest>, uuid5: string -> Uuid, sha256: string -> Digest)
    : (t': Tables)
    ensures t.keys <= t'.keys
  {
    if requests == [] then t
    else
      var q := requests[|requests| - 1];
      CreateLeadStep(RunLeads(t, requests[..|requests| - 1], uuid5, sha256), q.fields, q.key, q.newId, q.now,
        uuid5, sha256).tables
  }

  /** The outcome of the `i`-th request when `requests` are served in order. */
  function StepAt(t: Tables, requests: seq<LeadRequest>, i: nat, uuid5: string -> Uuid, sha256: string -> Digest)
    : LeadStep
    requires i < |requests|
  {
    var q := requests[i];
    CreateLeadStep(RunLeads(t, requests[..i], uuid5, sha256), q.fields, q.key, q.newId, q.now, uuid5, sha256)
  }

  /** Recorded idempotency keys are never forgotten. */
  lemma {:induction false} KeysOnlyGrow(t: Tables, requests: seq<LeadRequest>, i: nat, j: nat,
    uuid5: string -> Uuid, sha256: string -> Digest)
    requires i <= j <= |requests|
    ensures RunLeads(t, requests[..i], uuid5, sha256).keys <= RunLeads(t, requests[..j], uuid5, sha256).keys
  {
    if i < j {
      KeysOnlyGrow(t, requests, i, j - 1, uuid5, sha256);
      RunOneMore(t, requests, j, uuid5, sha256);
    }
  }

  /** Serving one more request never forgets a key. */
  lemma RunOneMore(t: Tables, requests: seq<LeadRequest>, j: nat, uuid5: string -> Uuid, sha256: string -> Digest)
    requires 0 < j <= |requests|
    ensures RunLeads(t, requests[..j - 1], uuid5, sha256).keys <= RunLeads(t, requests[..j], uuid5, sha256).keys
  {
    assert requests[..j][..j - 1] == requests[..j - 1];
  }

  /**
   * Idempotency: after a request succeeds, every later request whose key
   * normalizes to the same UUID is refused with `LeadAlreadyExistsException`
   * and publishes nothing, so each key creates at most one lead.
   */
  lemma AtMostOneLeadPerKey(t: Tables, requests: seq<LeadRequest>, i: nat, j: nat,
    uuid5: string -> Uuid, sha256: string -> Digest)
    requires i < j < |requests|
    requires StepAt(t, requests, i, uuid5, sha256).result.Ok?
    requires NormalizeKey(requests[j].key, uuid5) == NormalizeKey(requests[i].key, uuid5)
    ensures StepAt(t, requests, j, uuid5, sha256).result == Err(LeadAlreadyExists)
    ensures StepAt(t, requests, j, uuid5, sha256).events == []
  {
    KeyRecorded(t, requests, i, uuid5, sha256);
    KeysOnlyGrow(t, requests, i + 1, j, uuid5, sha256);
    assert NormalizeKey(requests[j].key, uuid5) in RunLeads(t, requests[..j], uuid5, sha256).keys;
  }

  /** A request that succeeds leaves its normalized key recorded. */
  lemma KeyRecorded(t: Tables, requests: seq<LeadRequest>, i: nat, uuid5: string -> Uuid, sha256: string -> Digest)
    requires i < |requests|
    requires StepAt(t, requests, i, uuid5, sha256).result.Ok?
    ensures NormalizeKey(requests[i].key, uuid5) in RunLeads(t, requests[..i + 1], uuid5, sha256).keys
  {
    assert requests[..i + 1][..i] == requests[..i];
  }

  /* ---------- the interactor objects ---------- */

  /** `CreateLeadInteractor`, the idempotency key being the one the request context supplies. */
  class CreateLeadInteractor {
    const leadRepo: LeadRepository
    const keysRepo: KeysRepository
    const broker: MessageBroker
    const session: Session
    const sha256: string -> Digest

    constructor (leadRepo: LeadRepository, keysRepo: KeysRepository, broker: MessageBroker, session: Session,
      sha256: string -> Digest)
      ensures this.leadRepo == leadRepo && this.keysRepo == keysRepo && this.broker == broker
      ensures this.session == session && this.sha256 == sha256
    {
      this.leadRepo := leadRepo;
      this.keysRepo := keysRepo;
      this.broker := broker;
      this.session := session;
      this.sha256 := sha256;
    }

    /** Both repositories work in the interactor's session. */
    predicate Valid() {
      leadRepo.session == session && keysRepo.session == session
    }

    /**
     * `create_lead(lead_dto)`, starting with nothing staged: the DTO, the
     * committed tables and the published events end as `CreateLeadStep` says.
     */
    method CreateLead(dto: LeadCreateIn, key: string, newId: Uuid, now: Timestamp) returns (r: Result<LeadOut, Error>)
      requires Valid()
      requires session.staged == session.durable
      modifies dto, session, broker
      ensures var s := CreateLeadStep(old(session.durable), old(dto.Fields()), key, newId, now, keysRepo.uuid5, sha256);
        && r == s.result && dto.Fields() == s.dto && session.durable == s.tables
        && broker.published == old(broker.published) + s.events
    {
      var keyExists := keysRepo.Exists(key);
      if keyExists {
        return Err(LeadAlreadyExists);
      }
      ghost var f := dto.Fields();
      var validator := new ValidateLead(dto);
      var valid := validator.Validate();
      r := PersistIfValid(dto, valid, key, newId, now);
      CreateLeadAfterKeyCheck(old(session.durable), f, key, newId, now, keysRepo.uuid5, sha256);
    }

    /** The rest of `create_lead` once the key is known to be new and the DTO validated: persist unless `valid` is an error. */
    method PersistIfValid(dto: LeadCreateIn, valid: Result<(), Error>, key: string, newId: Uuid, now: Timestamp)
      returns (r: Result<LeadOut, Error>)
      requires Valid()
      requires session.staged == session.durable
      modifies session, broker
      ensures var s := ValidatedLeadStep(old(session.durable), dto.Fields(), valid, NormalizeKey(key, keysRepo.uuid5),
          newId, now, sha256);
        && r == s.result && session.durable == s.tables
        && broker.published == old(broker.published) + s.events
    {
      if valid.Err? {
        r := Err(valid.error);
      } else {
        r := Persist(dto, key, newId, now);
      }
    }

    /**
     * The rest of `create_lead`, once the DTO has passed validation: stage
     * the lead and the key, commit, publish the event and convert the lead.
     */
    method Persist(dto: LeadCreateIn, key: string, newId: Uuid, now: Timestamp) returns (r: Result<LeadOut, Error>)
      requires Valid()
      requires session.staged == session.durable
      modifies session, broker
      ensures var s := PersistLeadStep(old(session.durable), old(dto.Fields()), NormalizeKey(key, keysRepo.uuid5),
          newId, now, sha256);
        && r == s.result && session.durable == s.tables
        && broker.published == old(broker.published) + s.events
    {
      var created := leadRepo.Create(dto.ToDict(), newId, now);
      if created.Err? {
        return Err(created.error);
      }
      var lead := created.value;
      var stored := keysRepo.Create(key);
      if stored.Err? {
        return Err(stored.error);
      }
      session.Commit();
      var contentHash := sha256(dto.note);
      broker.Publish(LeadCreatedEvent(lead.id, contentHash, lead.createdAt.value, dto.note));
      r := Ok(FromModel(EntityView(lead)));
    }
  }

  /** `CreateInsightInteractor`. */
  class CreateInsightInteractor {
    const insightRepo: InsightRepository
    const session: Session
    const generator: InsightGenerator

    constructor (insightRepo: InsightRepository, session: Session, generator: InsightGenerator)
      ensures this.insightRepo == insightRepo && this.session == session && this.generator == generator
    {
      this.insightRepo := insightRepo;
      this.session := session;
      this.generator := generator;
    }

    /**
     * `create_insight(insight)`, starting with nothing staged: the DTO and the
     * committed tables end as `CreateInsightStep` says, given the generator's
     * next answer, and the generator is asked exactly when the step says so.
     */
    method CreateInsight(dto: InsightCreateIn, newId: Uuid, now: Timestamp) returns (r: Result<InsightEntity, Error>)
      requires insightRepo.session == session
      requires session.staged == session.durable
      modifies dto, session, generator
      ensures var s := CreateInsightStep(old(session.durable), old(dto.Fields()), generator.outputs(old(generator.calls)),
          newId, now);
        && r == s.result && dto.Fields() == s.dto && session.durable == s.tables
        && generator.calls == old(generator.calls) + (if s.generated then 1 else 0)
      ensures r.Ok? ==> ClassifiedAs(r.value, generator.outputs(old(generator.calls)))
    {
      ghost var f, t, data := dto.Fields(), session.durable, generator.outputs(generator.calls);
      var validator := new ValidateInsight(dto);
      var valid := validator.Validate();
      ghost var s := ValidatedInsightStep(t, dto.Fields(), valid, data, newId, now);
      CreateInsightAfterValidation(t, f, data, newId, now);
      assert s == CreateInsightStep(t, f, data, newId, now);
      r := CreateIfValid(dto, valid, newId, now);
    }

    /** The rest of `create_insight` once the DTO is validated: go on unless `valid` is an error. */
    method CreateIfValid(dto: InsightCreateIn, valid: Result<(), Error>, newId: Uuid, now: Timestamp)
      returns (r: Result<InsightEntity, Error>)
      requires insightRepo.session == session
      requires session.staged == session.durable
      modifies session, generator
      ensures var s := ValidatedInsightStep(old(session.durable), dto.Fields(), valid,
          generator.outputs(old(generator.calls)), newId, now);
        && r == s.result && session.durable == s.tables
        && generator.calls == old(generator.calls) + (if s.generated then 1 else 0)
      ensures r.Ok? ==> ClassifiedAs(r.value, generator.outputs(old(generator.calls)))
    {
      if valid.Err? {
        return Err(valid.error);
      }
      var insightExists := insightRepo.Exists(dto.leadId, dto.contentHash);
      if insightExists {
        return Err(InsightAlreadyExists);
      }
      r := Store(dto, newId, now);
    }

    /**
     * The rest of `create_insight` once no insight with the DTO's lead id and
     * hash exists: ask the generator, store its answer under the DTO's hash
     * and commit.
     */
    method Store(dto: InsightCreateIn, newId: Uuid, now: Timestamp) returns (r: Result<InsightEntity, Error>)
      requires insightRepo.session == session
      requires session.staged == session.durable
      modifies session, generator
      ensures var s := StoreInsightStep(old(session.durable), dto.Fields(), generator.outputs(old(generator.calls)),
          newId, now);
        && r == s.result && session.durable == s.tables
        && generator.calls == old(generator.calls) + 1
      ensures r.Ok? ==> ClassifiedAs(r.value, generator.outputs(old(generator.calls)))
    {
      var answer := generator.Gen(dto.content);
      var data := answer["content_hash" := VStr(dto.contentHash)];
      r := insightRepo.Create(dto.leadId, data, newId, now);
      if r.Err? {
        return;
      }
      ClassifiedAsIgnoresHash(r.value, answer, VStr(dto.contentHash));
      session.Commit();
    }
  }

  /** `GetLeadInteractor`. */
  class GetLeadInteractor {
    const leadRepo: LeadRepository

    constructor (leadRepo: LeadRepository)
      ensures this.leadRepo == leadRepo
    {
      this.leadRepo := leadRepo;
    }

    /** `get_lead(lead_id)`, reading what the repository's session sees. */
    method GetLead(leadId: Uuid) returns (r: Result<LeadOut, Error>)
      ensures r == GetLeadResult(leadRepo.session.staged, leadId)
    {
      var lead := leadRepo.Get(ToString(leadId));
      if lead.Err? {
        return Err(lead.error);
      }
      r := Ok(FromModel(EntityView(lead.value)));
    }
  }
}
