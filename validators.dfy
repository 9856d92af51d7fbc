/**
 * Input validation (backend/application/lead/validators.py). Each validator
 * first replaces every present string field of its DTO by its stripped form,
 * then runs a fixed list of rules, collects the message of every rule that
 * fails, in rule order and without stopping at the first, and raises one
 * exception whose message joins them with "; ".
 */
module Validators {
  import opened Wrappers
  import opened PyStrings
  import opened Entities
  import opened Exceptions
  import opened Dto

  /** The lead rules, in the order `ValidateLead.validate` checks them. */
  datatype LeadRule =
    | NoteRequired
    | EmailFormat
    | EmailParts
    | EmailLength
    | PhoneDigits
    | PhoneLength
    | NameTooShort
    | NameTooLong
    | SourceTooLong

  function LeadMessage(r: LeadRule): (m: string)
    ensures m != []
  {
    match r
    case NoteRequired => "note is required and cannot be blank."
    case EmailFormat => "email has invalid format."
    case EmailParts => "email has invalid format (invalid parts)."
    case EmailLength => "email length must be <= 255."
    case PhoneDigits => "phone must contain only digits."
    case PhoneLength => "phone length must be <= 50."
    case NameTooShort => "name must be at least 2 chars."
    case NameTooLong => "name length must be <= 255."
    case SourceTooLong => "source length must be <= 100."
  }

  /** `_norm(v)`: strips a present string, keeps None. */
  function Norm(v: Option<string>): (r: Option<string>)
    ensures r.None? <==> v.None?
    ensures v.Some? ==> r.value == Strip(v.value)
  {
    match v
    case None => None
    case Some(s) => Some(Strip(s))
  }

  /** The DTO after the five assignments at the top of `ValidateLead.validate`. */
  function NormalizeLead(f: LeadFields): LeadFields {
    LeadFields(Strip(f.note), Norm(f.email), Norm(f.phone), Norm(f.name), Norm(f.source))
  }

  /** Validating a lead twice normalizes it no further than validating it once. */
  lemma NormalizeLeadIdempotent(f: LeadFields)
    ensures NormalizeLead(NormalizeLead(f)) == NormalizeLead(f)
  {
    StripIdempotent(f.note, IsSpace);
    if f.email.Some? { StripIdempotent(f.email.value, IsSpace); }
    if f.phone.Some? { StripIdempotent(f.phone.value, IsSpace); }
    if f.name.Some? { StripIdempotent(f.name.value, IsSpace); }
    if f.source.Some? { StripIdempotent(f.source.value, IsSpace); }
  }

  /** Python truthiness of an optional string: present and non-empty. */
  predicate Truthy(v: Option<string>) {
    v.Some? && v.value != []
  }

  /** `email.split("@", 1)`, for an email containing '@'. */
  function LocalPart(email: string): string {
    email[..IndexOf(email, '@')]
  }

  function DomainPart(email: string): string
    requires '@' in email
  {
    email[IndexOf(email, '@') + 1..]
  }

  /** The email rules, for a non-empty email. */
  function EmailViolations(email: string): (v: seq<LeadRule>)
    ensures forall r :: r in v ==> r == EmailFormat || r == EmailParts || r == EmailLength
  {
    (if Count(email, '@') != 1 then [EmailFormat]
     else if LocalPart(email) == [] || DomainPart(email) == [] || '.' !in DomainPart(email) then [EmailParts]
     else [])
    + (if |email| > EMAIL_MAX_LEN then [EmailLength] else [])
  }

  function PhoneViolations(phone: string): (v: seq<LeadRule>)
    ensures forall r :: r in v <==> (r == PhoneDigits && !IsDigits(phone)) || (r == PhoneLength && |phone| > PHONE_MAX_LEN)
  {
    (if !IsDigits(phone) then [PhoneDigits] else [])
    + (if |phone| > PHONE_MAX_LEN then [PhoneLength] else [])
  }

  function NameViolations(name: string): (v: seq<LeadRule>)
    ensures forall r :: r in v <==> (r == NameTooShort && |name| < MIN_NAME_LEN) || (r == NameTooLong && |name| > NAME_MAX_LEN)
  {
    (if |name| < MIN_NAME_LEN then [NameTooShort] else [])
    + (if |name| > NAME_MAX_LEN then [NameTooLong] else [])
  }

  /** The rules an already normalized lead breaks, in the order they are checked. */
  function LeadViolations(f: LeadFields): seq<LeadRule> {
    NoteViolations(f.note) + OptionalViolations(f)
  }

  function NoteViolations(note: string): seq<LeadRule> {
    if note == [] then [NoteRequired] else []
  }

  /** The rules on the four optional fields; an absent or empty field is not checked. */
  function OptionalViolations(f: LeadFields): (v: seq<LeadRule>)
    ensures NoteRequired !in v
  {
    EmailFieldViolations(f.email) + PhoneFieldViolations(f.phone) + ContactViolations(f)
  }

  function ContactViolations(f: LeadFields): (v: seq<LeadRule>)
    ensures forall r :: r in v <==> Breaks(f, r) && (r.NameTooShort? || r.NameTooLong? || r.SourceTooLong?)
  {
    NameFieldViolations(f.name) + SourceViolations(f.source)
  }

  function EmailFieldViolations(email: Option<string>): seq<LeadRule> {
    if Truthy(email) then EmailViolations(email.value) else []
  }

  function PhoneFieldViolations(phone: Option<string>): seq<LeadRule> {
    if Truthy(phone) then PhoneViolations(phone.value) else []
  }

  function NameFieldViolations(name: Option<string>): seq<LeadRule> {
    if Truthy(name) then NameViolations(name.value) else []
  }

  function SourceViolations(source: Option<string>): seq<LeadRule> {
    if Truthy(source) && |source.value| > SOURCE_MAX_LEN then [SourceTooLong] else []
  }

  function LeadMessages(rules: seq<LeadRule>): (ms: seq<string>)
    ensures |ms| == |rules|
    ensures forall i :: 0 <= i < |rules| ==> ms[i] == LeadMessage(rules[i])
  {
    if rules == [] then [] else [LeadMessage(rules[0])] + LeadMessages(rules[1..])
  }

  /** `"; ".join(errors)`: the message of `InvalidLeadDataException`. */
  function LeadErrorMessage(rules: seq<LeadRule>): string {
    Join(LeadMessages(rules), "; ")
  }

  /**
   * The shape of a valid email, stated independently of the rule code: exactly
   * one '@', with something before it and, after it, a domain holding a '.'.
   */
  predicate EmailShape(email: string) {
    exists i :: 0 < i < |email| - 1 && email[i] == '@'
      && '@' !in email[..i] && '@' !in email[i + 1..] && '.' in email[i + 1..]
  }

  predicate EmailAcceptable(email: string) {
    EmailShape(email) && |email| <= EMAIL_MAX_LEN
  }

  /**
   * What a validated lead satisfies: a non-blank note, and every present,
   * non-empty optional field within its rules.
   */
  predicate LeadAcceptable(f: LeadFields) {
    && f.note != []
    && (Truthy(f.email) ==> EmailAcceptable(f.email.value))
    && (Truthy(f.phone) ==> IsDigits(f.phone.value) && |f.phone.value| <= PHONE_MAX_LEN)
    && (Truthy(f.name) ==> MIN_NAME_LEN <= |f.name.value| <= NAME_MAX_LEN)
    && (Truthy(f.source) ==> |f.source.value| <= SOURCE_MAX_LEN)
  }

  /** The '@'-count and split checks of `validate` accept exactly the emails of the right shape. */
  lemma EmailShapeMatch(email: string)
    ensures EmailShape(email) ==> Count(email, '@') == 1
    ensures Count(email, '@') == 1 ==>
      (EmailShape(email) <==> LocalPart(email) != [] && DomainPart(email) != [] && '.' in DomainPart(email))
  {
    CountOne(email, '@');
    var i := IndexOf(email, '@');
    if Count(email, '@') == 1 && LocalPart(email) != [] && DomainPart(email) != [] && '.' in DomainPart(email) {
      assert email[..i] == LocalPart(email);
      assert email[i + 1..] == DomainPart(email);
      assert 0 < i < |email| - 1;
    }
    if EmailShape(email) {
      var j :| 0 < j < |email| - 1 && email[j] == '@'
        && '@' !in email[..j] && '@' !in email[j + 1..] && '.' in email[j + 1..];
      assert i == j;
    }
  }

  /**
   * A normalized lead passes every rule exactly when it is acceptable, so
   * `validate` returns normally iff the note is non-blank and each present
   * optional field keeps its rules.
   */
  lemma LeadRulesMatch(f: LeadFields)
    ensures LeadViolations(f) == [] <==> LeadAcceptable(f)
  {
    if Truthy(f.email) {
      EmailShapeMatch(f.email.value);
    }
  }

  /** Which email rules are reported, for a present, non-empty email. */
  lemma EmailViolationsComplete(email: string)
    ensures EmailFormat in EmailViolations(email) <==> Count(email, '@') != 1
    ensures EmailParts in EmailViolations(email) <==> Count(email, '@') == 1 && !EmailShape(email)
    ensures EmailLength in EmailViolations(email) <==> |email| > EMAIL_MAX_LEN
  {
    EmailShapeMatch(email);
  }

  /** Whether a normalized lead breaks rule `r`, stated field by field. */
  predicate Breaks(f: LeadFields, r: LeadRule) {
    match r
    case NoteRequired => f.note == []
    case EmailFormat => Truthy(f.email) && Count(f.email.value, '@') != 1
    case EmailParts => Truthy(f.email) && Count(f.email.value, '@') == 1 && !EmailShape(f.email.value)
    case EmailLength => Truthy(f.email) && |f.email.value| > EMAIL_MAX_LEN
    case PhoneDigits => Truthy(f.phone) && !IsDigits(f.phone.value)
    case PhoneLength => Truthy(f.phone) && |f.phone.value| > PHONE_MAX_LEN
    case NameTooShort => Truthy(f.name) && |f.name.value| < MIN_NAME_LEN
    case NameTooLong => Truthy(f.name) && |f.name.value| > NAME_MAX_LEN
    case SourceTooLong => Truthy(f.source) && |f.source.value| > SOURCE_MAX_LEN
  }

  /**
   * No short-circuit: every rule the lead breaks is reported, and only those
   * (so of the two email-format rules at most one is reported).
   */
  lemma LeadViolationsComplete(f: LeadFields)
    ensures forall r :: r in LeadViolations(f) <==> Breaks(f, r)
  {
    forall r ensures r in LeadViolations(f) <==> Breaks(f, r) {
      RuleReported(f, r);
    }
  }

  lemma RuleReported(f: LeadFields, r: LeadRule)
    ensures r in LeadViolations(f) <==> Breaks(f, r)
  {
    var b := EmailFieldViolations(f.email);
    var c := PhoneFieldViolations(f.phone);
    match r
    case NoteRequired =>
    case EmailFormat | EmailParts | EmailLength =>
      if Truthy(f.email) {
        EmailViolationsComplete(f.email.value);
      }
      assert r !in c;
    case PhoneDigits | PhoneLength =>
      assert r !in b;
    case NameTooShort | NameTooLong | SourceTooLong =>
      assert r !in b;
      assert r !in c;
  }

  /** Every lead rule once, in the order `ValidateLead.validate` checks them. */
  const LEAD_RULE_ORDER: seq<LeadRule> :=
    [NoteRequired, EmailFormat, EmailParts, EmailLength, PhoneDigits, PhoneLength,
     NameTooShort, NameTooLong, SourceTooLong]

  /** The rules of `rules` that the lead breaks, keeping their order. */
  function BrokenIn(f: LeadFields, rules: seq<LeadRule>): (v: seq<LeadRule>)
    ensures forall r :: r in v <==> r in rules && Breaks(f, r)
  {
    if rules == [] then []
    else (if Breaks(f, rules[0]) then [rules[0]] else []) + BrokenIn(f, rules[1..])
  }

  lemma {:induction false} BrokenInConcat(f: LeadFields, a: seq<LeadRule>, b: seq<LeadRule>)
    ensures BrokenIn(f, a + b) == BrokenIn(f, a) + BrokenIn(f, b)
  {
    if a == [] {
      assert a + b == b;
    } else {
      assert (a + b)[0] == a[0];
      assert (a + b)[1..] == a[1..] + b;
      BrokenInConcat(f, a[1..], b);
    }
  }

  lemma BrokenInOne(f: LeadFields, x: LeadRule)
    ensures BrokenIn(f, [x]) == (if Breaks(f, x) then [x] else [])
  {
    assert [x][1..] == [];
  }

  lemma BrokenInPair(f: LeadFields, x: LeadRule, y: LeadRule)
    ensures BrokenIn(f, [x, y]) == (if Breaks(f, x) then [x] else []) + (if Breaks(f, y) then [y] else [])
  {
    assert [x, y][1..] == [y];
    BrokenInOne(f, y);
    assert BrokenIn(f, [x, y]) == (if Breaks(f, x) then [x] else []) + BrokenIn(f, [y]);
  }

  /** The email block reports the broken email rules in their order. */
  lemma EmailBlockInOrder(f: LeadFields)
    ensures BrokenIn(f, [EmailFormat, EmailParts, EmailLength]) == EmailFieldViolations(f.email)
  {
    assert [EmailFormat, EmailParts, EmailLength][1..] == [EmailParts, EmailLength];
    BrokenInPair(f, EmailParts, EmailLength);
    if Truthy(f.email) {
      EmailShapeMatch(f.email.value);
    }
  }

  lemma PhoneBlockInOrder(f: LeadFields)
    ensures BrokenIn(f, [PhoneDigits, PhoneLength]) == PhoneFieldViolations(f.phone)
  {
    BrokenInPair(f, PhoneDigits, PhoneLength);
  }

  lemma NameBlockInOrder(f: LeadFields)
    ensures BrokenIn(f, [NameTooShort, NameTooLong]) == NameFieldViolations(f.name)
  {
    BrokenInPair(f, NameTooShort, NameTooLong);
  }

  /**
   * The rules a normalized lead breaks are reported in the order they are
   * checked, each at most once: exactly the broken ones among
   * `LEAD_RULE_ORDER`, kept in that order.
   */
  lemma LeadViolationsInOrder(f: LeadFields)
    ensures LeadViolations(f) == BrokenIn(f, LEAD_RULE_ORDER)
  {
    RuleOrderBlocks(f);
    BrokenInOne(f, NoteRequired);
    BrokenInOne(f, SourceTooLong);
    PhoneBlockInOrder(f);
    NameBlockInOrder(f);
    EmailBlockInOrder(f);
  }

  /** Filtering the whole rule list is filtering each field's block in turn. */
  lemma RuleOrderBlocks(f: LeadFields)
    ensures BrokenIn(f, LEAD_RULE_ORDER) ==
      BrokenIn(f, [NoteRequired])
      + (BrokenIn(f, [EmailFormat, EmailParts, EmailLength]) + BrokenIn(f, [PhoneDigits, PhoneLength])
         + (BrokenIn(f, [NameTooShort, NameTooLong]) + BrokenIn(f, [SourceTooLong])))
  {
    var note, email, phone, name, source :=
      [NoteRequired], [EmailFormat, EmailParts, EmailLength], [PhoneDigits, PhoneLength],
      [NameTooShort, NameTooLong], [SourceTooLong];
    assert LEAD_RULE_ORDER == note + (email + phone + (name + source));
    BrokenInConcat(f, name, source);
    BrokenInConcat(f, email, phone);
    BrokenInConcat(f, email + phone, name + source);
    BrokenInConcat(f, note, email + phone + (name + source));
  }

  /**
   * The outcome of validating a normalized lead: normal return when no rule
   * is broken, and otherwise `InvalidLeadDataException` carrying the joined
   * messages.
   */
  function LeadOutcome(f: LeadFields): (r: Result<(), Error>) {
    if LeadViolations(f) == [] then Ok(()) else Err(InvalidLeadData(LeadErrorMessage(LeadViolations(f))))
  }

  /**
   * Validation of a normalized lead returns normally exactly when the lead is
   * acceptable, and otherwise signals `InvalidLeadDataException` with the
   * messages of every broken rule, joined by "; ".
   */
  lemma LeadOutcomeMatches(f: LeadFields)
    ensures LeadOutcome(f).Ok? <==> LeadAcceptable(f)
    ensures LeadOutcome(f).Err? ==> LeadOutcome(f).error == InvalidLeadData(LeadErrorMessage(LeadViolations(f)))
  {
    LeadRulesMatch(f);
  }

  lemma MessagesConcat(a: seq<LeadRule>, b: seq<LeadRule>)
    ensures LeadMessages(a + b) == LeadMessages(a) + LeadMessages(b)
  {
    var l, r := LeadMessages(a + b), LeadMessages(a) + LeadMessages(b);
    assert |l| == |r|;
    forall i | 0 <= i < |l| ensures l[i] == r[i] {
      if i < |a| {
        assert (a + b)[i] == a[i];
      } else {
        assert (a + b)[i] == b[i - |a|];
      }
    }
  }

  /** The messages of a lead's violations are the messages of each field's block, in order. */
  lemma LeadMessagesParts(f: LeadFields)
    ensures LeadMessages(LeadViolations(f)) ==
      LeadMessages(NoteViolations(f.note)) + LeadMessages(EmailFieldViolations(f.email))
      + LeadMessages(PhoneFieldViolations(f.phone)) + LeadMessages(NameFieldViolations(f.name))
      + LeadMessages(SourceViolations(f.source))
  {
    var a, b, c := NoteViolations(f.note), EmailFieldViolations(f.email), PhoneFieldViolations(f.phone);
    var d, e := NameFieldViolations(f.name), SourceViolations(f.source);
    MessagesConcat(d, e);
    MessagesConcat(b + c, d + e);
    MessagesConcat(b, c);
    MessagesConcat(a, b + c + (d + e));
    assert LeadViolations(f) == a + (b + c + (d + e));
    SeqAssoc(LeadMessages(a), LeadMessages(b), LeadMessages(c), LeadMessages(d), LeadMessages(e));
  }

  lemma SeqAssoc<T>(a: seq<T>, b: seq<T>, c: seq<T>, d: seq<T>, e: seq<T>)
    ensures a + ((b + c) + (d + e)) == a + b + c + d + e
  {
  }

  /** The note check of `validate`. */
  method NoteErrors(note: string) returns (errors: seq<string>)
    ensures errors == LeadMessages(NoteViolations(note))
  {
    errors := [];
    if note == [] {
      errors := errors + [LeadMessage(NoteRequired)];
    }
  }

  /** The source check of `validate`. */
  method SourceErrors(source: Option<string>) returns (errors: seq<string>)
    ensures errors == LeadMessages(SourceViolations(source))
  {
    errors := [];
    if Truthy(source) && |source.value| > SOURCE_MAX_LEN {
      errors := errors + [LeadMessage(SourceTooLong)];
    }
  }

  /** The email block of `validate`: the messages of the email rules, in order. */
  method EmailErrors(email: Option<string>) returns (errors: seq<string>)
    ensures errors == LeadMessages(EmailFieldViolations(email))
  {
    errors := [];
    if Truthy(email) {
      var e := email.value;
      if Count(e, '@') != 1 {
        errors := errors + [LeadMessage(EmailFormat)];
      } else {
        var local, domain := LocalPart(e), DomainPart(e);
        if local == [] || domain == [] || '.' !in domain {
          errors := errors + [LeadMessage(EmailParts)];
        }
      }
      if |e| > EMAIL_MAX_LEN {
        errors := errors + [LeadMessage(EmailLength)];
      }
    }
  }

  /** The phone block of `validate`. */
  method PhoneErrors(phone: Option<string>) returns (errors: seq<string>)
    ensures errors == LeadMessages(PhoneFieldViolations(phone))
  {
    errors := [];
    if Truthy(phone) {
      var p := phone.value;
      if !IsDigits(p) {
        errors := errors + [LeadMessage(PhoneDigits)];
      }
      if |p| > PHONE_MAX_LEN {
        errors := errors + [LeadMessage(PhoneLength)];
      }
    }
  }

  /** The name block of `validate`. */
  method NameErrors(name: Option<string>) returns (errors: seq<string>)
    ensures errors == LeadMessages(NameFieldViolations(name))
  {
    errors := [];
    if Truthy(name) {
      var n := name.value;
      if |n| < MIN_NAME_LEN {
        errors := errors + [LeadMessage(NameTooShort)];
      }
      if |n| > NAME_MAX_LEN {
        errors := errors + [LeadMessage(NameTooLong)];
      }
    }
  }

  /** `ValidateLead`: normalizes the DTO it wraps in place, then checks it. */
  class ValidateLead {
    const lead: LeadCreateIn

    constructor (lead: LeadCreateIn)
      ensures this.lead == lead
    {
      this.lead := lead;
    }

    /**
     * `validate()`: strips every present field of the DTO, then returns
     * normally exactly when the stripped lead is acceptable, and otherwise
     * signals `InvalidLeadDataException` carrying every failed rule's message.
     */
    method Validate() returns (r: Result<(), Error>)
      modifies lead
      ensures lead.Fields() == NormalizeLead(old(lead.Fields()))
      ensures r == LeadOutcome(lead.Fields())
    {
      Normalize();
      r := Check();
    }

    /** The five assignments at the top of `validate`. */
    method Normalize()
      modifies lead
      ensures lead.Fields() == NormalizeLead(old(lead.Fields()))
    {
      lead.email := Norm(lead.email);
      lead.phone := Norm(lead.phone);
      lead.name := Norm(lead.name);
      lead.note := Strip(lead.note);
      lead.source := Norm(lead.source);
    }

    /** The end of `validate`: raise with the joined messages when any rule failed. */
    method Check() returns (r: Result<(), Error>)
      ensures r == LeadOutcome(lead.Fields())
    {
      var errors := Errors();
      if errors != [] {
        return Err(InvalidLeadData(Join(errors, "; ")));
      }
      return Ok(());
    }

    /** The `errors` list `validate` builds from the DTO as it now stands. */
    method Errors() returns (errors: seq<string>)
      ensures errors == LeadMessages(LeadViolations(lead.Fields()))
    {
      var noteErrors := NoteErrors(lead.note);
      var emailErrors := EmailErrors(lead.email);
      var phoneErrors := PhoneErrors(lead.phone);
      var nameErrors := NameErrors(lead.name);
      var sourceErrors := SourceErrors(lead.source);
      errors := noteErrors + emailErrors + phoneErrors + nameErrors + sourceErrors;
      LeadMessagesParts(lead.Fields());
    }
  }

  /** A note that is empty or all whitespace is always rejected, whatever the other fields hold. */
  lemma BlankNoteRejected(f: LeadFields)
    ensures NoteRequired in LeadViolations(NormalizeLead(f)) <==> IsBlank(f.note)
  {
    StripEmptyIffBlank(f.note, IsSpace);
  }

  /** An email with one '@' but no '.' after it is reported as having invalid parts, and only that. */
  lemma EmailWithoutDotRejected()
    ensures EmailViolations("a@b") == [EmailParts]
  {
    assert Count("a@b", '@') == 1;
    assert IndexOf("a@b", '@') == 1;
    assert DomainPart("a@b") == "b";
  }

  /** The insight rules, in the order `ValidateInsight.validate` checks them. */
  datatype InsightRule = ContentRequired | LeadIdRequired | ContentHashRequired

  function InsightMessage(r: InsightRule): (m: string)
    ensures m != []
  {
    match r
    case ContentRequired => "content is required and cannot be blank."
    case LeadIdRequired => "lead_id is required and cannot be blank."
    case ContentHashRequired => "content_hash is required and cannot be blank."
  }

  function NormalizeInsight(f: InsightFields): InsightFields {
    InsightFields(Strip(f.content), Strip(f.leadId), Strip(f.contentHash))
  }

  /** Validating an insight request twice normalizes it no further than validating it once. */
  lemma NormalizeInsightIdempotent(f: InsightFields)
    ensures NormalizeInsight(NormalizeInsight(f)) == NormalizeInsight(f)
  {
    StripIdempotent(f.content, IsSpace);
    StripIdempotent(f.leadId, IsSpace);
    StripIdempotent(f.contentHash, IsSpace);
  }

  function InsightViolations(f: InsightFields): seq<InsightRule> {
    (if f.content == [] then [ContentRequired] else [])
    + (if f.leadId == [] then [LeadIdRequired] else [])
    + (if f.contentHash == [] then [ContentHashRequired] else [])
  }

  /** Every insight rule once, in the order `ValidateInsight.validate` checks them. */
  const INSIGHT_RULE_ORDER: seq<InsightRule> := [ContentRequired, LeadIdRequired, ContentHashRequired]

  /** Whether a normalized insight request breaks rule `r`: the field it guards is empty. */
  predicate InsightBreaks(f: InsightFields, r: InsightRule) {
    match r
    case ContentRequired => f.content == []
    case LeadIdRequired => f.leadId == []
    case ContentHashRequired => f.contentHash == []
  }

  /** The rules of `rules` that the request breaks, keeping their order. */
  function InsightBrokenIn(f: InsightFields, rules: seq<InsightRule>): (v: seq<InsightRule>)
    ensures forall r :: r in v <==> r in rules && InsightBreaks(f, r)
  {
    if rules == [] then []
    else (if InsightBreaks(f, rules[0]) then [rules[0]] else []) + InsightBrokenIn(f, rules[1..])
  }

  /**
   * One rule per empty field, in field order and each at most once: exactly
   * the broken ones among `INSIGHT_RULE_ORDER`, kept in that order.
   */
  lemma InsightViolationsInOrder(f: InsightFields)
    ensures InsightViolations(f) == InsightBrokenIn(f, INSIGHT_RULE_ORDER)
  {
    var R := INSIGHT_RULE_ORDER;
    assert R[1..] == [LeadIdRequired, ContentHashRequired];
    assert R[1..][1..] == [ContentHashRequired];
    assert R[1..][1..][1..] == [];
    assert InsightBrokenIn(f, R[1..][1..]) == (if f.contentHash == [] then [ContentHashRequired] else []);
    assert InsightBrokenIn(f, R[1..]) ==
      (if f.leadId == [] then [LeadIdRequired] else []) + InsightBrokenIn(f, R[1..][1..]);
    assert InsightBrokenIn(f, R) ==
      (if f.content == [] then [ContentRequired] else []) + InsightBrokenIn(f, R[1..]);
  }

  function InsightMessages(rules: seq<InsightRule>): (ms: seq<string>)
    ensures |ms| == |rules|
    ensures forall i :: 0 <= i < |rules| ==> ms[i] == InsightMessage(rules[i])
  {
    if rules == [] then [] else [InsightMessage(rules[0])] + InsightMessages(rules[1..])
  }

  lemma InsightMessagesAppend(rules: seq<InsightRule>, r: InsightRule)
    ensures InsightMessages(rules + [r]) == InsightMessages(rules) + [InsightMessage(r)]
  {
  }

  /** The outcome of validating a normalized insight request. */
  function InsightOutcome(f: InsightFields): (r: Result<(), Error>)
    ensures r.Ok? <==> f.content != [] && f.leadId != [] && f.contentHash != []
    ensures r.Err? ==> r.error == InvalidInsightData(Join(InsightMessages(InsightViolations(f)), "; "))
  {
    if InsightViolations(f) == [] then Ok(())
    else Err(InvalidInsightData(Join(InsightMessages(InsightViolations(f)), "; ")))
  }

  /** An insight request passes validation exactly when none of its three strings is blank. */
  lemma InsightAcceptedIffNotBlank(f: InsightFields)
    ensures InsightOutcome(NormalizeInsight(f)).Ok? <==>
      !IsBlank(f.content) && !IsBlank(f.leadId) && !IsBlank(f.contentHash)
  {
    StripEmptyIffBlank(f.content, IsSpace);
    StripEmptyIffBlank(f.leadId, IsSpace);
    StripEmptyIffBlank(f.contentHash, IsSpace);
  }

  /** `ValidateInsight`: normalizes the DTO it wraps in place, then checks it. */
  class ValidateInsight {
    const insight: InsightCreateIn

    constructor (insight: InsightCreateIn)
      ensures this.insight == insight
    {
      this.insight := insight;
    }

    /**
     * `validate()`: strips the three strings, then signals
     * `InvalidInsightDataException` with every failed rule's message when any
     * of them is empty.
     */
    method Validate() returns (r: Result<(), Error>)
      modifies insight
      ensures insight.Fields() == NormalizeInsight(old(insight.Fields()))
      ensures r == InsightOutcome(insight.Fields())
    {
      Normalize();
      r := Check();
    }

    /** The three assignments at the top of `validate`. */
    method Normalize()
      modifies insight
      ensures insight.Fields() == NormalizeInsight(old(insight.Fields()))
    {
      insight.content := Strip(insight.content);
      insight.leadId := Strip(insight.leadId);
      insight.contentHash := Strip(insight.contentHash);
    }

    /** The checks of `validate`, on the DTO as it now stands. */
    method Check() returns (r: Result<(), Error>)
      ensures r == InsightOutcome(insight.Fields())
    {
      var errors: seq<string> := [];
      ghost var rules: seq<InsightRule> := [];
      if insight.content == [] {
        InsightMessagesAppend(rules, ContentRequired);
        errors, rules := errors + [InsightMessage(ContentRequired)], rules + [ContentRequired];
      }
      if insight.leadId == [] {
        InsightMessagesAppend(rules, LeadIdRequired);
        errors, rules := errors + [InsightMessage(LeadIdRequired)], rules + [LeadIdRequired];
      }
      if insight.contentHash == [] {
        InsightMessagesAppend(rules, ContentHashRequired);
        errors, rules := errors + [InsightMessage(ContentHashRequired)], rules + [ContentHashRequired];
      }
      assert rules == InsightViolations(insight.Fields());

      if errors != [] {
        return Err(InvalidInsightData(Join(errors, "; ")));
      }
      return Ok(());
    }
  }
}
