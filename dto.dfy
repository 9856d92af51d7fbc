/**
 * Data transfer objects between the transport and the interactors
 * (backend/application/lead/dto.py). The two input DTOs are mutable records
 * (the validators overwrite their fields); the output DTO is built once.
 */
module Dto {
  import opened Wrappers
  import opened Uuids
  import opened Entities

  /** The value held by a `LeadCreateInDTO` at one moment. */
  datatype LeadFields = LeadFields(
    note: string,
    email: Option<string>,
    phone: Option<string>,
    name: Option<string>,
    source: Option<string>)

  /** The keys of the dictionary `to_dict` returns, which are also lead columns. */
  const LEAD_PAYLOAD_KEYS: set<string> := {"email", "phone", "name", "note", "source"}

  /** `LeadCreateInDTO`: a mutable record with a required note and four optional fields. */
  class LeadCreateIn {
    var note: string
    var email: Option<string>
    var phone: Option<string>
    var name: Option<string>
    var source: Option<string>

    constructor (f: LeadFields)
      ensures Fields() == f
    {
      note, email, phone, name, source := f.note, f.email, f.phone, f.name, f.source;
    }

    function Fields(): LeadFields
      reads this
    {
      LeadFields(note, email, phone, name, source)
    }

    /**
     * `to_dict()`: exactly the keys email, phone, name, note and source, each
     * holding the DTO's current value (None as None).
     */
    function ToDict(): (d: map<string, Option<string>>)
      reads this
      ensures d.Keys == LEAD_PAYLOAD_KEYS
      ensures d["note"] == Some(note)
      ensures PayloadFields(d) == Fields()
    {
      LeadPayload(Fields())
    }
  }

  /** The dictionary `to_dict` builds from the fields a DTO holds; the note is never None. */
  function LeadPayload(f: LeadFields): (d: map<string, Option<string>>)
    ensures d.Keys == LEAD_PAYLOAD_KEYS
    ensures Lookup(d, "note") == Some(f.note)
    ensures PayloadFields(d) == f
  {
    map["email" := f.email, "phone" := f.phone, "name" := f.name, "note" := Some(f.note), "source" := f.source]
  }

  /** `payload.get(key)`: the value under `key`, or None when the key is missing. */
  function Lookup(payload: map<string, Option<string>>, key: string): Option<string> {
    if key in payload then payload[key] else None
  }

  /**
   * Reads the five lead fields back out of a payload, a missing or None note
   * reading as the empty note.
   */
  function PayloadFields(payload: map<string, Option<string>>): LeadFields {
    var note := Lookup(payload, "note");
    LeadFields(if note.Some? then note.value else "", Lookup(payload, "email"),
      Lookup(payload, "phone"), Lookup(payload, "name"), Lookup(payload, "source"))
  }

  /** `InsighCreateInDto`: the three strings an insight is derived from. */
  datatype InsightFields = InsightFields(content: string, leadId: string, contentHash: string)

  class InsightCreateIn {
    var content: string
    var leadId: string
    var contentHash: string

    constructor (f: InsightFields)
      ensures Fields() == f
    {
      content, leadId, contentHash := f.content, f.leadId, f.contentHash;
    }

    function Fields(): InsightFields
      reads this
    {
      InsightFields(content, leadId, contentHash)
    }
  }

  /** An attribute that an object may or may not have (what `getattr` with a default sees). */
  datatype Attr<T> = Absent | Present(value: T)

  /** The object `from_model` reads: id, note and created_at are required, the rest may be missing. */
  datatype LeadModelView = LeadModelView(
    id: Uuid,
    note: string,
    createdAt: Option<Timestamp>,
    email: Attr<Option<string>>,
    phone: Attr<Option<string>>,
    name: Attr<Option<string>>,
    source: Attr<Option<string>>,
    insights: Attr<Option<seq<InsightEntity>>>)

  /** `LeadOutDTO`. */
  datatype LeadOut = LeadOut(
    id: Uuid,
    note: string,
    createdAt: Option<Timestamp>,
    email: Option<string>,
    phone: Option<string>,
    name: Option<string>,
    source: Option<string>,
    insights: seq<InsightEntity>)

  /** `getattr(model, name, None)`. */
  function OptionalAttr(a: Attr<Option<string>>): (r: Option<string>)
    ensures a.Absent? ==> r == None
    ensures a.Present? ==> r == a.value
  {
    match a
    case Absent => None
    case Present(v) => v
  }

  /**
   * `LeadOutDTO.from_model(model)`: id, note and created_at are copied; a
   * missing optional attribute becomes None; missing, None or empty insights
   * become the empty list.
   */
  function FromModel(m: LeadModelView): (o: LeadOut)
    ensures o.id == m.id && o.note == m.note && o.createdAt == m.createdAt
    ensures o.email == OptionalAttr(m.email) && o.phone == OptionalAttr(m.phone)
    ensures o.name == OptionalAttr(m.name) && o.source == OptionalAttr(m.source)
    ensures (m.insights.Absent? || m.insights.value.None?) ==> o.insights == []
    ensures m.insights.Present? && m.insights.value.Some? ==> o.insights == m.insights.value.value
  {
    var insights := match m.insights
      case Absent => []
      case Present(None) => []
      case Present(Some(xs)) => if xs == [] then [] else xs;
    LeadOut(m.id, m.note, m.createdAt, OptionalAttr(m.email), OptionalAttr(m.phone),
      OptionalAttr(m.name), OptionalAttr(m.source), insights)
  }

  /** A `LeadEntity` seen as a model: it has every attribute. */
  function EntityView(e: LeadEntity): LeadModelView {
    LeadModelView(e.id, e.note, e.createdAt, Present(e.email), Present(e.phone),
      Present(e.name), Present(e.source), Present(Some(e.insights)))
  }

  /** `from_model` of a lead entity copies every field of it unchanged. */
  lemma FromEntity(e: LeadEntity)
    ensures var o := FromModel(EntityView(e));
      o.id == e.id && o.note == e.note && o.createdAt == e.createdAt &&
      o.email == e.email && o.phone == e.phone && o.name == e.name &&
      o.source == e.source && o.insights == e.insights
  {
  }
}
