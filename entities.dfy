/**
 * The domain: field length limits, the three closed enumerations an insight
 * is classified by, and the lead and insight records
 * (backend/domen/entities.py).
 */
module Entities {
  import opened Wrappers
  import opened Uuids

  const EMAIL_MAX_LEN: nat := 255
  const PHONE_MAX_LEN: nat := 50
  const NAME_MAX_LEN: nat := 255
  const SOURCE_MAX_LEN: nat := 100
  const MIN_NAME_LEN: nat := 2

  /** A server clock reading (`created_at`); its calendar rendering is not modelled. */
  type Timestamp = nat

  datatype Intent = Buy | Support | Spam | Job | Other

  datatype Priority = P0 | P1 | P2 | P3

  datatype NextAction = Call | Email | Ignore | Qualify

  /** `IntentEnum.<member>.value`. */
  function IntentValue(i: Intent): string {
    match i
    case Buy => "buy"
    case Support => "support"
    case Spam => "spam"
    case Job => "job"
    case Other => "other"
  }

  function PriorityValue(p: Priority): string {
    match p
    case P0 => "P0"
    case P1 => "P1"
    case P2 => "P2"
    case P3 => "P3"
  }

  function NextActionValue(a: NextAction): string {
    match a
    case Call => "call"
    case Email => "email"
    case Ignore => "ignore"
    case Qualify => "qualify"
  }

  /**
   * `IntentEnum(s)`: the member whose value is `s`; None where Python raises
   * ValueError because no member has that value.
   */
  function IntentOf(s: string): (r: Option<Intent>)
    ensures r.Some? ==> IntentValue(r.value) == s
    ensures r.None? <==> s !in {"buy", "support", "spam", "job", "other"}
  {
    if s == "buy" then Some(Buy)
    else if s == "support" then Some(Support)
    else if s == "spam" then Some(Spam)
    else if s == "job" then Some(Job)
    else if s == "other" then Some(Other)
    else None
  }

  /** `PriorityEnum(s)`. */
  function PriorityOf(s: string): (r: Option<Priority>)
    ensures r.Some? ==> PriorityValue(r.value) == s
    ensures r.None? <==> s !in {"P0", "P1", "P2", "P3"}
  {
    if s == "P0" then Some(P0)
    else if s == "P1" then Some(P1)
    else if s == "P2" then Some(P2)
    else if s == "P3" then Some(P3)
    else None
  }

  /** `NextActionEnum(s)`. */
  function NextActionOf(s: string): (r: Option<NextAction>)
    ensures r.Some? ==> NextActionValue(r.value) == s
    ensures r.None? <==> s !in {"call", "email", "ignore", "qualify"}
  {
    if s == "call" then Some(Call)
    else if s == "email" then Some(Email)
    else if s == "ignore" then Some(Ignore)
    else if s == "qualify" then Some(Qualify)
    else None
  }

  /** Looking a member up by its own value gives the member back, for all three enumerations. */
  lemma EnumRoundTrips(i: Intent, p: Priority, a: NextAction)
    ensures IntentOf(IntentValue(i)) == Some(i)
    ensures PriorityOf(PriorityValue(p)) == Some(p)
    ensures NextActionOf(NextActionValue(a)) == Some(a)
  {
  }

  /** `InsightEntity`: tags and created_at may be absent. */
  datatype InsightEntity = InsightEntity(
    id: Uuid,
    leadId: Uuid,
    intent: Intent,
    priority: Priority,
    nextAction: NextAction,
    confidence: real,
    contentHash: string,
    tags: Option<seq<string>>,
    createdAt: Option<Timestamp>)

  /** `LeadEntity`: the optional contact fields, and the lead's insights in stored order. */
  datatype LeadEntity = LeadEntity(
    id: Uuid,
    note: string,
    email: Option<string>,
    phone: Option<string>,
    name: Option<string>,
    source: Option<string>,
    createdAt: Option<Timestamp>,
    insights: seq<InsightEntity>)
}
