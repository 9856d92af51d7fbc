/**
 * The SQL repositories (backend/infrastructure/db/repositories.py) over an
 * in-memory database. The three tables are one `Tables` value; a `Session`
 * holds the rows staged by `flush` (which later queries of the same session
 * see) and the rows made durable by `commit`. Every repository operation is
 * a function from the staged tables to a result and new staged tables; the
 * repository classes are proved against those functions.
 */
module Repositories {
  import opened Wrappers
  import opened Uuids
  import opened Entities
  import opened Exceptions
  import opened Dto

  /** The widths of the lead's varchar columns, and of the insight's content_hash column. */
  const EMAIL_COLUMN_WIDTH: nat := 255
  const PHONE_COLUMN_WIDTH: nat := 50
  const NAME_COLUMN_WIDTH: nat := 255
  const SOURCE_COLUMN_WIDTH: nat := 100
  const CONTENT_HASH_COLUMN_WIDTH: nat := 64

  /** A row of the `leads` table. */
  datatype LeadRow = LeadRow(
    id: Uuid,
    note: string,
    email: Option<string>,
    phone: Option<string>,
    name: Option<string>,
    source: Option<string>,
    createdAt: Timestamp)

  /** A row of the `insights` table; the enumeration columns only hold members. */
  datatype InsightRow = InsightRow(
    id: Uuid,
    leadId: Uuid,
    intent: Intent,
    priority: Priority,
    nextAction: NextAction,
    confidence: real,
    tags: Option<seq<string>>,
    contentHash: string,
    createdAt: Timestamp)

  /**
   * The database: leads by primary key, insights in the order they were
   * inserted, and the primary keys of the `keys` table.
   */
  datatype Tables = Tables(leads: map<Uuid, LeadRow>, insights: seq<InsightRow>, keys: set<Uuid>)

  /** A value of the mapping an insight is built from. */
  datatype Value = VStr(str: string) | VReal(num: real) | VStrList(items: seq<string>) | VNone

  const MISSING_LEAD_ID: string := "lead_id must be a valid UUID string"

  /* ---------- model to entity ---------- */

  /** `_insight_model_to_entity`. */
  function InsightModelToEntity(m: InsightRow): (e: InsightEntity)
    ensures e.id == m.id && e.leadId == m.leadId && e.contentHash == m.contentHash
    ensures e.createdAt == Some(m.createdAt)
  {
    InsightEntity(m.id, m.leadId, m.intent, m.priority, m.nextAction, m.confidence,
      m.contentHash, m.tags, Some(m.createdAt))
  }

  /** The row an insight entity was read from (for an entity that has a creation time). */
  function InsightEntityRow(e: InsightEntity): InsightRow
    requires e.createdAt.Some?
  {
    InsightRow(e.id, e.leadId, e.intent, e.priority, e.nextAction, e.confidence,
      e.tags, e.contentHash, e.createdAt.value)
  }

  /** Mapping a row to an entity loses nothing: the row can be read back from the entity. */
  lemma InsightModelToEntityLossless(m: InsightRow)
    ensures InsightEntityRow(InsightModelToEntity(m)) == m
  {
  }

  /** The insights of one lead (`Lead.insights`), in stored order. */
  function LeadInsights(insights: seq<InsightRow>, leadId: Uuid): (r: seq<InsightRow>)
    ensures |r| <= |insights|
    ensures forall x :: x in r <==> x in insights && x.leadId == leadId
  {
    if insights == [] then []
    else
      var rest := LeadInsights(insights[..|insights| - 1], leadId);
      var last := insights[|insights| - 1];
      assert insights == insights[..|insights| - 1] + [last];
      if last.leadId == leadId then rest + [last] else rest
  }

  /** A lead none of whose insights is stored has no insights. */
  lemma {:induction false} NoLeadInsights(insights: seq<InsightRow>, leadId: Uuid)
    requires forall i :: 0 <= i < |insights| ==> insights[i].leadId != leadId
    ensures LeadInsights(insights, leadId) == []
  {
    if insights != [] {
      NoLeadInsights(insights[..|insights| - 1], leadId);
    }
  }

  function InsightsToEntities(rows: seq<InsightRow>): (es: seq<InsightEntity>)
    ensures |es| == |rows|
    ensures forall i :: 0 <= i < |rows| ==> es[i] == InsightModelToEntity(rows[i])
  {
    if rows == [] then [] else [InsightModelToEntity(rows[0])] + InsightsToEntities(rows[1..])
  }

  /** `_lead_model_to_entity`: the lead's columns, and its insights as entities, in stored order. */
  function LeadModelToEntity(t: Tables, m: LeadRow): (e: LeadEntity)
    ensures e.id == m.id && e.note == m.note && e.email == m.email && e.phone == m.phone
    ensures e.name == m.name && e.source == m.source && e.createdAt == Some(m.createdAt)
    ensures e.insights == InsightsToEntities(LeadInsights(t.insights, m.id))
  {
    LeadEntity(m.id, m.note, m.email, m.phone, m.name, m.source, Some(m.createdAt),
      InsightsToEntities(LeadInsights(t.insights, m.id)))
  }

  /* ---------- keys ---------- */

  /**
   * `_normalize_key`: the UUID the key spells, or else `uuid5(NAMESPACE_DNS, key)`;
   * `uuid5` is a parameter since SHA-1 is not modelled.
   */
  function NormalizeKey(key: string, uuid5: string -> Uuid): (u: Uuid)
    ensures Parse(key) != None ==> Parse(key) == Some(u)
    ensures Parse(key) == None ==> u == uuid5(key)
  {
    match Parse(key)
    case Some(u) => u
    case None => uuid5(key)
  }

  /** The canonical text of a UUID normalizes to that UUID, whatever `uuid5` is. */
  lemma NormalizeCanonicalKey(u: Uuid, uuid5: string -> Uuid)
    ensures NormalizeKey(ToString(u), uuid5) == u
  {
    ParseToString(u);
  }

  /** `KeysRepository.create` with the normalized key: the primary key rejects a second copy at flush. */
  function KeyCreate(t: Tables, u: Uuid): (r: (Result<(), Error>, Tables))
    ensures r.0.Ok? <==> u !in t.keys
    ensures r.0.Err? ==> r.0.error == DatabaseError && r.1 == t
    ensures r.0.Ok? ==> r.1 == t.(keys := t.keys + {u})
  {
    if u in t.keys then (Err(DatabaseError), t) else (Ok(()), t.(keys := t.keys + {u}))
  }

  /**
   * After a key is created, `exists` holds for every key that normalizes to
   * the same UUID, and the key table grew by exactly that UUID.
   */
  lemma KeyCreateThenExists(t: Tables, key: string, other: string, uuid5: string -> Uuid)
    requires KeyCreate(t, NormalizeKey(key, uuid5)).0.Ok?
    requires NormalizeKey(other, uuid5) == NormalizeKey(key, uuid5)
    ensures var t' := KeyCreate(t, NormalizeKey(key, uuid5)).1;
      NormalizeKey(other, uuid5) in t'.keys && t'.keys - t.keys == {NormalizeKey(key, uuid5)}
  {
  }

  /* ---------- leads ---------- */

  /** The lead's varchar columns hold the row's strings. */
  predicate LeadRowFits(row: LeadRow) {
    && (row.email.Some? ==> |row.email.value| <= EMAIL_COLUMN_WIDTH)
    && (row.phone.Some? ==> |row.phone.value| <= PHONE_COLUMN_WIDTH)
    && (row.name.Some? ==> |row.name.value| <= NAME_COLUMN_WIDTH)
    && (row.source.Some? ==> |row.source.value| <= SOURCE_COLUMN_WIDTH)
  }

  /**
   * `LeadRepository.create(payload)`: `models.Lead(**payload)` rejects a key
   * that is not a string column of the lead; the flush then rejects a missing
   * or None note, a string wider than its column and a taken id. On success
   * the lead is staged with the server's time and returned as an entity.
   */
  function LeadCreate(t: Tables, payload: map<string, Option<string>>, newId: Uuid, now: Timestamp)
    : (r: (Result<LeadEntity, Error>, Tables))
    ensures !(payload.Keys <= LEAD_PAYLOAD_KEYS) ==> r.0 == Err(UnknownColumn)
    ensures r.0.Err? ==> r.1 == t
    ensures r.0.Ok? <==>
      && payload.Keys <= LEAD_PAYLOAD_KEYS
      && Lookup(payload, "note").Some?
      && newId !in t.leads
      && LeadRowFits(LeadRowOf(payload, newId, now))
    ensures r.0.Ok? ==>
      && r.1 == t.(leads := t.leads[newId := LeadRowOf(payload, newId, now)])
      && r.0.value == LeadModelToEntity(r.1, LeadRowOf(payload, newId, now))
  {
    if !(payload.Keys <= LEAD_PAYLOAD_KEYS) then (Err(UnknownColumn), t)
    else if Lookup(payload, "note").None? then (Err(DatabaseError), t)
    else
      var row := LeadRowOf(payload, newId, now);
      if newId in t.leads || !LeadRowFits(row) then (Err(DatabaseError), t)
      else
        var t' := t.(leads := t.leads[newId := row]);
        (Ok(LeadModelToEntity(t', row)), t')
  }

  /** The row `models.Lead(**payload)` stands for once flushed (a None note is caught before). */
  function LeadRowOf(payload: map<string, Option<string>>, newId: Uuid, now: Timestamp): LeadRow {
    var note := Lookup(payload, "note");
    LeadRow(newId, if note.Some? then note.value else "", Lookup(payload, "email"),
      Lookup(payload, "phone"), Lookup(payload, "name"), Lookup(payload, "source"), now)
  }

  /** The row built from `to_dict()` of a lead holds exactly that lead's fields. */
  lemma LeadRowOfPayload(f: LeadFields, newId: Uuid, now: Timestamp)
    ensures LeadRowOf(LeadPayload(f), newId, now) == LeadRow(newId, f.note, f.email, f.phone, f.name, f.source, now)
  {
    assert PayloadFields(LeadPayload(f)) == f;
  }

  /**
   * `LeadRepository.get(lead_id)`: a text that is not a UUID raises
   * ValueError, an unknown UUID raises `LeadNotFoundException`, and a known
   * one gives the lead with its insights.
   */
  function LeadGet(t: Tables, leadId: string): (r: Result<LeadEntity, Error>)
    ensures Parse(leadId) == None ==> r == Err(ValueError(MISSING_LEAD_ID))
    ensures r.Err? ==> r.error == ValueError(MISSING_LEAD_ID) || r.error == LeadNotFound
  {
    match Parse(leadId)
    case None => Err(ValueError(MISSING_LEAD_ID))
    case Some(u) => if u in t.leads then Ok(LeadModelToEntity(t, t.leads[u])) else Err(LeadNotFound)
  }

  /**
   * `get` of a text that reads as the UUID `u`: the lead stored under `u` with
   * its insights, or `LeadNotFoundException` when there is none.
   */
  lemma LeadGetParsed(t: Tables, leadId: string, u: Uuid)
    requires Parse(leadId) == Some(u)
    ensures LeadGet(t, leadId) == if u in t.leads then Ok(LeadModelToEntity(t, t.leads[u])) else Err(LeadNotFound)
  {
  }

  /** `get` given the canonical text of a UUID looks that UUID up. */
  lemma LeadGetById(t: Tables, u: Uuid)
    ensures LeadGet(t, ToString(u)) == if u in t.leads then Ok(LeadModelToEntity(t, t.leads[u])) else Err(LeadNotFound)
  {
    ParseToString(u);
    LeadGetParsed(t, ToString(u), u);
  }

  /**
   * Reading back a lead just created gives the payload's note, email, phone,
   * name and source, and the insights already stored under its id.
   */
  lemma GetAfterCreate(t: Tables, payload: map<string, Option<string>>, newId: Uuid, now: Timestamp)
    requires LeadCreate(t, payload, newId, now).0.Ok?
    ensures var (r, t') := LeadCreate(t, payload, newId, now);
      var g := LeadGet(t', ToString(newId));
      && g == r
      && g.Ok? && g.value.id == newId && g.value.createdAt == Some(now)
      && PayloadFields(payload) == LeadFields(g.value.note, g.value.email, g.value.phone, g.value.name, g.value.source)
      && g.value.insights == InsightsToEntities(LeadInsights(t.insights, newId))
  {
    LeadGetById(LeadCreate(t, payload, newId, now).1, newId);
  }

  /* ---------- insights ---------- */

  /**
   * What `InsightRepository.create` has gathered before the flush: the lead's
   * UUID, the enumeration members, and the confidence, tags and hash values
   * as they will be sent to the database.
   */
  datatype InsightDraft = InsightDraft(
    leadId: Uuid,
    intent: Intent,
    priority: Priority,
    nextAction: NextAction,
    confidence: real,
    tags: Value,
    contentHash: Value)

  /** `float(x)` for the values the model knows; a string or a list is not a number. */
  function ToFloat(v: Value): (r: Result<real, Error>)
    ensures r.Ok? <==> v.VReal?
    ensures r.Ok? ==> r.value == v.num
  {
    if v.VReal? then Ok(v.num) else Err(NotAFloat)
  }

  /** `IntentEnum(v)`: only a string equal to a member's value names a member. */
  function IntentFrom(v: Value): (r: Result<Intent, Error>)
    ensures r.Ok? <==> v.VStr? && IntentOf(v.str).Some?
    ensures r.Ok? ==> v == VStr(IntentValue(r.value))
    ensures r.Err? ==> r.error == NotAnEnumMember("IntentEnum")
  {
    if v.VStr? && IntentOf(v.str).Some? then Ok(IntentOf(v.str).value) else Err(NotAnEnumMember("IntentEnum"))
  }

  function PriorityFrom(v: Value): (r: Result<Priority, Error>)
    ensures r.Ok? <==> v.VStr? && PriorityOf(v.str).Some?
    ensures r.Ok? ==> v == VStr(PriorityValue(r.value))
    ensures r.Err? ==> r.error == NotAnEnumMember("PriorityEnum")
  {
    if v.VStr? && PriorityOf(v.str).Some? then Ok(PriorityOf(v.str).value) else Err(NotAnEnumMember("PriorityEnum"))
  }

  function NextActionFrom(v: Value): (r: Result<NextAction, Error>)
    ensures r.Ok? <==> v.VStr? && NextActionOf(v.str).Some?
    ensures r.Ok? ==> v == VStr(NextActionValue(r.value))
    ensures r.Err? ==> r.error == NotAnEnumMember("NextActionEnum")
  {
    if v.VStr? && NextActionOf(v.str).Some? then Ok(NextActionOf(v.str).value) else Err(NotAnEnumMember("NextActionEnum"))
  }

  /** The message of the ValueError that a missing required field turns into. */
  function MissingField(name: string): string {
    "Missing insight field: '" + name + "'"
  }

  /**
   * The mapping branch of `InsightRepository.create`, up to the flush: a lead
   * id that is not a UUID raises ValueError; otherwise the fields are read
   * from the mapping.
   */
  function DraftFromMapping(leadId: string, data: map<string, Value>): (r: Result<InsightDraft, Error>)
    ensures Parse(leadId) == None ==> r == Err(ValueError(MISSING_LEAD_ID))
    ensures r.Ok? ==> Parse(leadId) == Some(r.value.leadId) && r == DraftFields(r.value.leadId, data)
  {
    match Parse(leadId)
    case None => Err(ValueError(MISSING_LEAD_ID))
    case Some(u) => DraftFields(u, data)
  }

  /** For a lead id that reads as the UUID `u`, the mapping branch reads the fields for `u`. */
  lemma DraftFromMappingParsed(leadId: string, u: Uuid, data: map<string, Value>)
    requires Parse(leadId) == Some(u)
    ensures DraftFromMapping(leadId, data) == DraftFields(u, data)
  {
  }

  /**
   * Reading the mapping for the lead `u`: intent, priority and next_action
   * must be present, then confidence is converted (0 when absent), tags read
   * (None when absent), content_hash must be present; then the three
   * enumeration values are looked up.
   */
  function DraftFields(u: Uuid, data: map<string, Value>): (r: Result<InsightDraft, Error>)
    ensures r.Ok? ==> r.value.leadId == u && {"intent", "priority", "next_action", "content_hash"} <= data.Keys
    ensures r.Ok? ==>
      && data["intent"] == VStr(IntentValue(r.value.intent))
      && data["priority"] == VStr(PriorityValue(r.value.priority))
      && data["next_action"] == VStr(NextActionValue(r.value.nextAction))
    ensures r.Ok? ==> r.value.contentHash == data["content_hash"]
    ensures r.Ok? && "confidence" !in data ==> r.value.confidence == 0.0
    ensures r.Ok? && "confidence" in data ==> data["confidence"] == VReal(r.value.confidence)
    ensures r.Ok? ==> r.value.tags == (if "tags" in data then data["tags"] else VNone)
  {
    if "intent" !in data then Err(ValueError(MissingField("intent")))
    else if "priority" !in data then Err(ValueError(MissingField("priority")))
    else if "next_action" !in data then Err(ValueError(MissingField("next_action")))
    else
      var confidence := ToFloat(if "confidence" in data then data["confidence"] else VReal(0.0));
      if confidence.Err? then Err(confidence.error)
      else
        var tags := if "tags" in data then data["tags"] else VNone;
        if "content_hash" !in data then Err(ValueError(MissingField("content_hash")))
        else
          var intent := IntentFrom(data["intent"]);
          if intent.Err? then Err(intent.error)
          else
            var priority := PriorityFrom(data["priority"]);
            if priority.Err? then Err(priority.error)
            else
              var nextAction := NextActionFrom(data["next_action"]);
              if nextAction.Err? then Err(nextAction.error)
              else Ok(InsightDraft(u, intent.value, priority.value, nextAction.value,
                confidence.value, tags, data["content_hash"]))
  }

  /** The entity branch of `InsightRepository.create`: the entity's own id, lead id and time are ignored. */
  function DraftFromEntity(leadId: string, e: InsightEntity): (r: Result<InsightDraft, Error>)
    ensures r.Err? <==> Parse(leadId) == None
    ensures r.Err? ==> r.error == ValueError(MISSING_LEAD_ID)
    ensures r.Ok? ==>
      && Parse(leadId) == Some(r.value.leadId) && r.value.contentHash == VStr(e.contentHash)
      && r.value.intent == e.intent && r.value.priority == e.priority && r.value.nextAction == e.nextAction
      && r.value.confidence == e.confidence
      && r.value.tags == (if e.tags.Some? then VStrList(e.tags.value) else VNone)
  {
    match Parse(leadId)
    case None => Err(ValueError(MISSING_LEAD_ID))
    case Some(u) =>
      Ok(InsightDraft(u, e.intent, e.priority, e.nextAction, e.confidence,
        if e.tags.Some? then VStrList(e.tags.value) else VNone, VStr(e.contentHash)))
  }

  /** No stored insight has this id. */
  predicate FreshInsightId(insights: seq<InsightRow>, id: Uuid) {
    forall i :: 0 <= i < |insights| ==> insights[i].id != id
  }

  /**
   * The flush of a new insight: the database rejects a lead id with no lead
   * (foreign key), a confidence outside [0, 1] (check constraint), tags that
   * are not a list of strings or None, a content hash that is not a string of
   * at most 64 characters, and a taken id. On success the row is appended and
   * returned as an entity.
   */
  function InsightFlush(t: Tables, d: InsightDraft, newId: Uuid, now: Timestamp)
    : (r: (Result<InsightEntity, Error>, Tables))
    ensures r.0.Err? ==> r.0.error == DatabaseError && r.1 == t
    ensures r.0.Ok? <==>
      && d.leadId in t.leads
      && 0.0 <= d.confidence <= 1.0
      && (d.tags.VNone? || d.tags.VStrList?)
      && d.contentHash.VStr? && |d.contentHash.str| <= CONTENT_HASH_COLUMN_WIDTH
      && FreshInsightId(t.insights, newId)
    ensures r.0.Ok? ==>
      var row := InsightRow(newId, d.leadId, d.intent, d.priority, d.nextAction, d.confidence,
        if d.tags.VStrList? then Some(d.tags.items) else None, d.contentHash.str, now);
      r.1 == t.(insights := t.insights + [row]) && r.0.value == InsightModelToEntity(row)
  {
    if d.leadId in t.leads && 0.0 <= d.confidence <= 1.0 && (d.tags.VNone? || d.tags.VStrList?)
      && d.contentHash.VStr? && |d.contentHash.str| <= CONTENT_HASH_COLUMN_WIDTH
      && FreshInsightId(t.insights, newId)
    then
      var row := InsightRow(newId, d.leadId, d.intent, d.priority, d.nextAction, d.confidence,
        if d.tags.VStrList? then Some(d.tags.items) else None, d.contentHash.str, now);
      (Ok(InsightModelToEntity(row)), t.(insights := t.insights + [row]))
    else (Err(DatabaseError), t)
  }

  /** The mapping's value for an insight's tags: the list, or None. */
  function TagsValue(tags: Option<seq<string>>): Value {
    if tags.Some? then VStrList(tags.value) else VNone
  }

  /**
   * The classification `e` carries is the one the mapping gives: its intent,
   * priority and next_action are the members the mapping names, its
   * confidence is the mapping's (0 when absent) and its tags are the
   * mapping's (None when absent).
   */
  predicate ClassifiedAs(e: InsightEntity, data: map<string, Value>) {
    && "intent" in data && data["intent"] == VStr(IntentValue(e.intent))
    && "priority" in data && data["priority"] == VStr(PriorityValue(e.priority))
    && "next_action" in data && data["next_action"] == VStr(NextActionValue(e.nextAction))
    && (if "confidence" in data then data["confidence"] == VReal(e.confidence) else e.confidence == 0.0)
    && (if "tags" in data then data["tags"] == TagsValue(e.tags) else e.tags == None)
  }

  /** Overwriting the mapping's content_hash leaves the classification it gives unchanged. */
  lemma ClassifiedAsIgnoresHash(e: InsightEntity, data: map<string, Value>, hash: Value)
    ensures ClassifiedAs(e, data["content_hash" := hash]) <==> ClassifiedAs(e, data)
  {
    var data' := data["content_hash" := hash];
    assert forall k :: k in {"intent", "priority", "next_action", "confidence", "tags"} ==>
      (k in data' <==> k in data) && (k in data ==> data'[k] == data[k]);
  }

  /** `InsightRepository.create(lead_id, mapping)`. */
  function InsightCreate(t: Tables, leadId: string, data: map<string, Value>, newId: Uuid, now: Timestamp)
    : (r: (Result<InsightEntity, Error>, Tables))
    ensures r.0.Err? ==> r.1 == t
    ensures DraftFromMapping(leadId, data).Err? ==> r.0 == Err(DraftFromMapping(leadId, data).error)
    ensures r.0.Ok? ==>
      && r.0.value.id == newId && r.0.value.createdAt == Some(now)
      && r.1.leads == t.leads && r.1.keys == t.keys
      && r.1.insights == t.insights + [InsightEntityRow(r.0.value)]
    ensures r.0.Ok? ==> ClassifiedAs(r.0.value, data)
  {
    match DraftFromMapping(leadId, data)
    case Err(e) => (Err(e), t)
    case Ok(d) => FlushKeepsClassification(t, d, data, newId, now); InsightFlush(t, d, newId, now)
  }

  /** What the flush stores of a draft read from `data` carries the classification `data` gives. */
  lemma FlushKeepsClassification(t: Tables, d: InsightDraft, data: map<string, Value>, newId: Uuid, now: Timestamp)
    requires DraftFields(d.leadId, data) == Ok(d)
    ensures InsightFlush(t, d, newId, now).0.Ok? ==> ClassifiedAs(InsightFlush(t, d, newId, now).0.value, data)
  {
  }

  /**
   * What a successful `create(lead_id, mapping)` has checked: the lead id
   * names a stored lead, the insight id was free, and the stored hash is the
   * mapping's content_hash.
   */
  lemma InsightCreateChecks(t: Tables, leadId: string, data: map<string, Value>, newId: Uuid, now: Timestamp)
    requires InsightCreate(t, leadId, data, newId, now).0.Ok?
    ensures var e := InsightCreate(t, leadId, data, newId, now).0.value;
      && Parse(leadId) == Some(e.leadId) && e.leadId in t.leads && FreshInsightId(t.insights, newId)
      && "content_hash" in data && data["content_hash"] == VStr(e.contentHash)
  {
  }

  /** `InsightRepository.create(lead_id, entity)`. */
  function InsightCreateFromEntity(t: Tables, leadId: string, e: InsightEntity, newId: Uuid, now: Timestamp)
    : (r: (Result<InsightEntity, Error>, Tables))
    ensures r.0.Err? ==> r.1 == t
    ensures r.0.Ok? ==>
      && r.0.value.id == newId && r.0.value.createdAt == Some(now)
      && r.1.leads == t.leads && r.1.keys == t.keys
      && r.1.insights == t.insights + [InsightEntityRow(r.0.value)]
      && Parse(leadId) == Some(r.0.value.leadId) && r.0.value.contentHash == e.contentHash
      && r.0.value.intent == e.intent && r.0.value.priority == e.priority
      && r.0.value.nextAction == e.nextAction && r.0.value.confidence == e.confidence
      && r.0.value.tags == e.tags
  {
    match DraftFromEntity(leadId, e)
    case Err(err) => (Err(err), t)
    case Ok(d) => InsightFlush(t, d, newId, now)
  }

  /**
   * Required fields are checked in the order intent, priority, next_action,
   * and only then content_hash (after confidence has been converted).
   */
  lemma MissingFieldsInOrder(leadId: string, u: Uuid, data: map<string, Value>)
    requires Parse(leadId) == Some(u)
    ensures "intent" !in data ==> DraftFromMapping(leadId, data) == Err(ValueError(MissingField("intent")))
    ensures "intent" in data && "priority" !in data ==>
      DraftFromMapping(leadId, data) == Err(ValueError(MissingField("priority")))
    ensures "intent" in data && "priority" in data && "next_action" !in data ==>
      DraftFromMapping(leadId, data) == Err(ValueError(MissingField("next_action")))
    ensures
      && {"intent", "priority", "next_action"} <= data.Keys && "content_hash" !in data
      && ("confidence" in data ==> data["confidence"].VReal?)
      ==> DraftFromMapping(leadId, data) == Err(ValueError(MissingField("content_hash")))
  {
    DraftFromMappingParsed(leadId, u, data);
  }

  /** An enumeration value that names no member makes `create` fail, with the enumeration's name. */
  lemma UnknownIntentRejected(leadId: string, u: Uuid, data: map<string, Value>, s: string)
    requires Parse(leadId) == Some(u)
    requires {"intent", "priority", "next_action", "content_hash"} <= data.Keys
    requires "confidence" !in data
    requires data["intent"] == VStr(s) && s !in {"buy", "support", "spam", "job", "other"}
    ensures DraftFromMapping(leadId, data) == Err(NotAnEnumMember("IntentEnum"))
  {
    DraftFromMappingParsed(leadId, u, data);
  }

  /** The number of stored insights with this lead id and hash (`select count(*) ... where ...`). */
  function CountMatches(insights: seq<InsightRow>, leadId: Uuid, hash: string): (n: nat)
    ensures n <= |insights|
  {
    if insights == [] then 0
    else
      var last := insights[|insights| - 1];
      CountMatches(insights[..|insights| - 1], leadId, hash)
        + (if last.leadId == leadId && last.contentHash == hash then 1 else 0)
  }

  /** Some stored insight has this lead id and hash. */
  predicate HasInsight(insights: seq<InsightRow>, leadId: Uuid, hash: string) {
    exists i :: 0 <= i < |insights| && insights[i].leadId == leadId && insights[i].contentHash == hash
  }

  lemma {:induction false} CountMatchesPositive(insights: seq<InsightRow>, leadId: Uuid, hash: string)
    ensures CountMatches(insights, leadId, hash) > 0 <==> HasInsight(insights, leadId, hash)
  {
    if insights != [] {
      var init := insights[..|insights| - 1];
      CountMatchesPositive(init, leadId, hash);
      if HasInsight(init, leadId, hash) {
        var i :| 0 <= i < |init| && init[i].leadId == leadId && init[i].contentHash == hash;
        assert insights[i] == init[i];
      }
      if HasInsight(insights, leadId, hash) {
        var i :| 0 <= i < |insights| && insights[i].leadId == leadId && insights[i].contentHash == hash;
        if i < |init| {
          assert init[i] == insights[i];
        }
      }
    }
  }

  /**
   * `InsightRepository.exists(lead_id, content_hash)`: False for a lead id
   * that is not a UUID, and otherwise whether some stored insight has both.
   */
  function InsightExists(t: Tables, leadId: string, hash: string): (b: bool)
    ensures Parse(leadId) == None ==> !b
  {
    match Parse(leadId)
    case None => false
    case Some(u) => HasInsight(t.insights, u, hash)
  }

  /** For a lead id that reads as the UUID `u`, `exists` says whether an insight of `u` has the hash. */
  lemma InsightExistsParsed(t: Tables, leadId: string, u: Uuid, hash: string)
    requires Parse(leadId) == Some(u)
    ensures InsightExists(t, leadId, hash) <==> HasInsight(t.insights, u, hash)
  {
  }

  /* ---------- the session and the repository objects ---------- */

  /** An `AsyncSession`: flushed rows are `staged`; `commit` makes them `durable`. */
  class Session {
    var staged: Tables
    var durable: Tables

    constructor (t: Tables)
      ensures staged == t && durable == t
    {
      staged, durable := t, t;
    }

    method Commit()
      modifies this
      ensures durable == old(staged) && staged == old(staged)
    {
      durable := staged;
    }
  }

  class LeadRepository {
    const session: Session

    constructor (session: Session)
      ensures this.session == session
    {
      this.session := session;
    }

    /** `create(payload)`: add and flush the new lead, then read it back. */
    method Create(payload: map<string, Option<string>>, newId: Uuid, now: Timestamp)
      returns (r: Result<LeadEntity, Error>)
      modifies session
      ensures (r, session.staged) == LeadCreate(old(session.staged), payload, newId, now)
      ensures session.durable == old(session.durable)
    {
      var res := LeadCreate(session.staged, payload, newId, now);
      r := res.0;
      session.staged := res.1;
    }

    /** `get(lead_id)`. */
    method Get(leadId: string) returns (r: Result<LeadEntity, Error>)
      ensures r == LeadGet(session.staged, leadId)
    {
      var parsed := Parse(leadId);
      if parsed.None? {
        return Err(ValueError(MISSING_LEAD_ID));
      }
      var u := parsed.value;
      if u !in session.staged.leads {
        return Err(LeadNotFound);
      }
      return Ok(LeadModelToEntity(session.staged, session.staged.leads[u]));
    }
  }

  class KeysRepository {
    const session: Session
    /** `uuid.uuid5(NAMESPACE_DNS, ·)`. */
    const uuid5: string -> Uuid

    constructor (session: Session, uuid5: string -> Uuid)
      ensures this.session == session && this.uuid5 == uuid5
    {
      this.session := session;
      this.uuid5 := uuid5;
    }

    method Exists(key: string) returns (b: bool)
      ensures b <==> NormalizeKey(key, uuid5) in session.staged.keys
    {
      b := NormalizeKey(key, uuid5) in session.staged.keys;
    }

    method Create(key: string) returns (r: Result<(), Error>)
      modifies session
      ensures (r, session.staged) == KeyCreate(old(session.staged), NormalizeKey(key, uuid5))
      ensures session.durable == old(session.durable)
    {
      var u := NormalizeKey(key, uuid5);
      if u in session.staged.keys {
        return Err(DatabaseError);
      }
      session.staged := session.staged.(keys := session.staged.keys + {u});
      return Ok(());
    }
  }

  class InsightRepository {
    const session: Session

    constructor (session: Session)
      ensures this.session == session
    {
      this.session := session;
    }

    /** `create(lead_id, mapping)`. */
    method Create(leadId: string, data: map<string, Value>, newId: Uuid, now: Timestamp)
      returns (r: Result<InsightEntity, Error>)
      modifies session
      ensures (r, session.staged) == InsightCreate(old(session.staged), leadId, data, newId, now)
      ensures session.durable == old(session.durable)
    {
      var res := InsightCreate(session.staged, leadId, data, newId, now);
      r := res.0;
      session.staged := res.1;
    }

    /** `create(lead_id, entity)`. */
    method CreateFromEntity(leadId: string, e: InsightEntity, newId: Uuid, now: Timestamp)
      returns (r: Result<InsightEntity, Error>)
      modifies session
      ensures (r, session.staged) == InsightCreateFromEntity(old(session.staged), leadId, e, newId, now)
      ensures session.durable == old(session.durable)
    {
      var res := InsightCreateFromEntity(session.staged, leadId, e, newId, now);
      r := res.0;
      session.staged := res.1;
    }

    /** `exists(lead_id, content_hash)`: counts the matching rows and tests the count. */
    method Exists(leadId: string, hash: string) returns (b: bool)
      ensures b == InsightExists(session.staged, leadId, hash)
    {
      var parsed := Parse(leadId);
      if parsed.None? {
        return false;
      }
      var u := parsed.value;
      var insights := session.staged.insights;
      var count := 0;
      var i := 0;
      while i < |insights|
        invariant 0 <= i <= |insights|
        invariant count == CountMatches(insights[..i], u, hash)
      {
        assert insights[..i + 1][..i] == insights[..i];
        if insights[i].leadId == u && insights[i].contentHash == hash {
          count := count + 1;
        }
        i := i + 1;
      }
      assert insights[..i] == insights;
      CountMatchesPositive(insights, u, hash);
      b := count != 0;
    }
  }
}
