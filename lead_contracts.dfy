/** The lead record of the lead-intake product: field validation, the
    dictionary form it is logged and replayed in, and the factory adapters
    create leads with. The clock and the id generator are inputs. */
module LeadContracts {
  import opened Wrappers
  import opened Strings
  import opened Values

  datatype LeadSource = SourceEmail | SourceFile | SourceForm | SourceApi

  datatype Urgency = Unknown | Low | Normal | Urgent

  function SourceValue(s: LeadSource): string {
    match s
    case SourceEmail => "email"
    case SourceFile => "file"
    case SourceForm => "form"
    case SourceApi => "api"
  }

  function UrgencyValue(u: Urgency): string {
    match u
    case Unknown => "UNKNOWN"
    case Low => "LOW"
    case Normal => "NORMAL"
    case Urgent => "URGENT"
  }

  /** `LeadSource(s)`: the member whose value is `s`. */
  function ParseSource(s: string): (r: Result<LeadSource, string>)
    ensures r.Ok? ==> SourceValue(r.value) == s
    ensures r.Err? ==> forall src: LeadSource :: SourceValue(src) != s
  {
    if s == "email" then Ok(SourceEmail)
    else if s == "file" then Ok(SourceFile)
    else if s == "form" then Ok(SourceForm)
    else if s == "api" then Ok(SourceApi)
    else Err("ValueError: " + Repr(VStr(s)) + " is not a valid LeadSource")
  }

  /** `UrgencyLabel(v)`: only a string equal to a member's value converts. */
  function ParseUrgency(v: Value): (r: Result<Urgency, string>)
    ensures r.Ok? ==> v == VStr(UrgencyValue(r.value))
    ensures r.Err? ==> forall u: Urgency :: v != VStr(UrgencyValue(u))
  {
    if v == VStr("UNKNOWN") then Ok(Unknown)
    else if v == VStr("LOW") then Ok(Low)
    else if v == VStr("NORMAL") then Ok(Normal)
    else if v == VStr("URGENT") then Ok(Urgent)
    else Err("ValueError: " + Repr(v) + " is not a valid UrgencyLabel")
  }

  lemma SourceRoundTrip(s: LeadSource)
    ensures ParseSource(SourceValue(s)) == Ok(s)
  {
  }

  /** A source's value has no surrounding whitespace, so stripping keeps it. */
  lemma SourceValueStripped(s: LeadSource)
    ensures Strip(SourceValue(s)) == SourceValue(s)
  {
    StripOfStripped(SourceValue(s));
  }

  lemma UrgencyRoundTrip(u: Urgency)
    ensures ParseUrgency(VStr(UrgencyValue(u))) == Ok(u)
  {
  }

  function TextSteps(value: Value, steps: nat): string
    decreases steps
  {
    if steps > 0 then TextSteps(value, steps - 1) else Strip(ToStr(value))
  }

  /** `str(value).strip()`. The steps keep `str` of a non-string, its
      `repr`, out of the proofs of callers. */
  function Text(value: Value): (r: string)
    ensures value.VStr? ==> r == Strip(value.s)
  {
    assert TextSteps(value, 3) == TextSteps(value, 0);
    TextSteps(value, Depth(value))
  }

  lemma TextOf(value: Value)
    ensures Text(value) == Strip(ToStr(value))
  {
    assert TextSteps(value, 3) == TextSteps(value, 0);
  }

  /** `_require_non_empty`: the stripped text of `str(value)`, or the
      `ValueError` message. The steps only keep the body out of the proofs
      of callers, which use the contract below. */
  function RequireSteps(value: Value, fieldName: string, maxLen: Option<nat>, steps: nat): Result<string, string>
    decreases steps
  {
    if steps > 0 then RequireSteps(value, fieldName, maxLen, steps - 1)
    else if value.VNone? then Err(fieldName + " is required (got None)")
    else
      var s := Text(value);
      if s == [] then Err(fieldName + " is required (got empty)")
      else if maxLen.Some? && |s| > maxLen.value then
        Err(fieldName + " exceeds max length " + NatToString(maxLen.value) + " (len=" + NatToString(|s|) + ")")
      else Ok(s)
  }

  /** What `_require_non_empty` accepts: a value whose stripped text is
      non-empty and within the limit. */
  predicate Accepts(value: Value, maxLen: Option<nat>) {
    !value.VNone? && Text(value) != [] && (maxLen.Some? ==> |Text(value)| <= maxLen.value)
  }

  function RequireNonEmpty(value: Value, fieldName: string, maxLen: Option<nat>): (r: Result<string, string>)
    ensures r.Ok? <==> Accepts(value, maxLen)
    ensures r.Ok? ==> r.value == Text(value)
  {
    assert RequireSteps(value, fieldName, maxLen, 3) == RequireSteps(value, fieldName, maxLen, 0);
    RequireSteps(value, fieldName, maxLen, Depth(value))
  }

  /** The three messages of `_require_non_empty`, checked in this order. */
  lemma RequireNonEmptyErrors(value: Value, fieldName: string, maxLen: Option<nat>)
    ensures value.VNone? ==> RequireNonEmpty(value, fieldName, maxLen) == Err(fieldName + " is required (got None)")
    ensures !value.VNone? && Text(value) == [] ==>
              RequireNonEmpty(value, fieldName, maxLen) == Err(fieldName + " is required (got empty)")
    ensures !value.VNone? && Text(value) != [] && maxLen.Some? && |Text(value)| > maxLen.value ==>
              RequireNonEmpty(value, fieldName, maxLen)
              == Err(fieldName + " exceeds max length " + NatToString(maxLen.value)
                     + " (len=" + NatToString(|Text(value)|) + ")")
  {
    assert RequireSteps(value, fieldName, maxLen, 3) == RequireSteps(value, fieldName, maxLen, 0);
  }

  /** What the check accepts is the non-blank stripped text. */
  lemma RequireNonEmptyStripped(value: Value, fieldName: string, maxLen: Option<nat>)
    ensures RequireNonEmpty(value, fieldName, maxLen).Ok? ==>
              !IsBlank(ToStr(value)) && IsStripped(RequireNonEmpty(value, fieldName, maxLen).value)
  {
    TextOf(value);
    StripCharacterization(ToStr(value));
  }

  /** `_optional_str`: blank or absent gives nothing, otherwise the stripped
      text cut to `maxLen`. */
  function OptionalStr(value: Value, maxLen: Option<nat>): (r: Option<string>)
    ensures r.None? <==> value.VNone? || Text(value) == []
    ensures r.Some? && (maxLen.None? || |Text(value)| <= maxLen.value) ==> r.value == Text(value)
    ensures r.Some? && maxLen.Some? && |Text(value)| > maxLen.value ==>
              r.value == Text(value)[..maxLen.value]
  {
    if value.VNone? then None
    else
      var s := Text(value);
      if s == [] then None
      else if maxLen.Some? && |s| > maxLen.value then Some(s[..maxLen.value])
      else Some(s)
  }

  /** A lead as the dataclass holds it: the constructor validates the fields
      but stores them as given. */
  datatype Lead = Lead(
    leadId: string, source: LeadSource, receivedAt: string, fromAddress: string,
    subject: string, leadText: string, rawRef: string, urgency: Urgency, clientId: Option<string>)

  /** A required text field that passes its check: non-blank after
      stripping, and no longer than the limit. */
  predicate FieldOk(s: string, maxLen: nat) {
    Strip(s) != [] && |Strip(s)| <= maxLen
  }

  /** The field limits `__post_init__` enforces. */
  predicate ValidLead(l: Lead) {
    FieldOk(l.leadId, 64) && FieldOk(l.receivedAt, 32) && FieldOk(l.fromAddress, 256)
    && FieldOk(l.subject, 500) && FieldOk(l.leadText, 20000) && FieldOk(l.rawRef, 500)
  }

  /** `Lead(...)`: `__post_init__` checks the fields in declaration order and
      raises on the first that fails. */
  function NewLeadSteps(l: Lead, steps: nat): Result<Lead, string>
    decreases steps
  {
    if steps > 0 then NewLeadSteps(l, steps - 1)
    else
      var _ :- RequireNonEmpty(VStr(l.leadId), "lead_id", Some(64));
      var _ :- RequireNonEmpty(VStr(l.receivedAt), "received_at", Some(32));
      var _ :- RequireNonEmpty(VStr(l.fromAddress), "from_address", Some(256));
      var _ :- RequireNonEmpty(VStr(l.subject), "subject", Some(500));
      var _ :- RequireNonEmpty(VStr(l.leadText), "lead_text", Some(20000));
      var _ :- RequireNonEmpty(VStr(l.rawRef), "raw_ref", Some(500));
      Ok(l)
  }

  function NewLead(l: Lead): Result<Lead, string> {
    NewLeadSteps(l, Depth(l))
  }

  lemma NewLeadUnfold(l: Lead)
    ensures NewLead(l) == NewLeadSteps(l, 0)
  {
    assert NewLeadSteps(l, 3) == NewLeadSteps(l, 0);
  }

  /** One field check of the constructor passes exactly when the field is
      fine. */
  lemma FieldCheck(s: string, fieldName: string, maxLen: nat)
    ensures RequireNonEmpty(VStr(s), fieldName, Some(maxLen)).Ok? <==> FieldOk(s, maxLen)
  {
  }

  /** Construction succeeds exactly for a valid lead, and then keeps every
      field as given. */
  lemma NewLeadSpec(l: Lead)
    ensures ValidLead(l) ==> NewLead(l) == Ok(l)
    ensures !ValidLead(l) ==> NewLead(l).Err?
  {
    NewLeadUnfold(l);
    FieldCheck(l.leadId, "lead_id", 64);
    FieldCheck(l.receivedAt, "received_at", 32);
    FieldCheck(l.fromAddress, "from_address", 256);
    FieldCheck(l.subject, "subject", 500);
    FieldCheck(l.leadText, "lead_text", 20000);
    FieldCheck(l.rawRef, "raw_ref", 500);
    if !FieldOk(l.leadId, 64) {
    } else if !FieldOk(l.receivedAt, 32) {
    } else if !FieldOk(l.fromAddress, 256) {
    } else if !FieldOk(l.subject, 500) {
    } else if !FieldOk(l.leadText, 20000) {
    } else if !FieldOk(l.rawRef, 500) {
    }
  }

  /** `to_dict`: the fields in declaration order, enums as their values. */
  function ToDict(l: Lead): Dict {
    [Entry("lead_id", VStr(l.leadId)), Entry("source", VStr(SourceValue(l.source))),
     Entry("received_at", VStr(l.receivedAt)), Entry("from_address", VStr(l.fromAddress)),
     Entry("subject", VStr(l.subject)), Entry("lead_text", VStr(l.leadText)),
     Entry("raw_ref", VStr(l.rawRef)), Entry("urgency", VStr(UrgencyValue(l.urgency))),
     Entry("client_id", if l.clientId.Some? then VStr(l.clientId.value) else VNone)]
  }

  /** `d.get(key, default)`. */
  function GetOr(d: Dict, key: string, default: Value): Value {
    if Get(d, key).Some? then Get(d, key).value else default
  }

  function FromDictSteps(d: Dict, steps: nat): Result<Lead, string>
    decreases steps
  {
    if steps > 0 then FromDictSteps(d, steps - 1)
    else
      var leadId :- RequireNonEmpty(GetOr(d, "lead_id", VStr("")), "lead_id", None);
      var sourceText :- RequireNonEmpty(GetOr(d, "source", VStr("")), "source", None);
      var source :- ParseSource(sourceText);
      var receivedAt :- RequireNonEmpty(GetOr(d, "received_at", VStr("")), "received_at", None);
      var fromAddress :- RequireNonEmpty(GetOr(d, "from_address", VStr("")), "from_address", None);
      var subject :- RequireNonEmpty(GetOr(d, "subject", VStr("")), "subject", None);
      var leadText :- RequireNonEmpty(GetOr(d, "lead_text", VStr("")), "lead_text", None);
      var rawRef :- RequireNonEmpty(GetOr(d, "raw_ref", VStr("")), "raw_ref", None);
      var urgency :- ParseUrgency(GetOr(d, "urgency", VStr("UNKNOWN")));
      Ok(Lead(leadId, source, receivedAt, fromAddress, subject, leadText, rawRef, urgency,
              OptionalStr(GetOr(d, "client_id", VNone), None)))
  }

  /** The keyword arguments of `from_dict`, evaluated in order; the first
      raise wins. The lemmas below state what it computes. */
  function FromDictFields(d: Dict): Result<Lead, string> {
    FromDictSteps(d, Depth(d))
  }

  lemma FromDictFieldsUnfold(d: Dict)
    ensures FromDictFields(d) == FromDictSteps(d, 0)
  {
    assert FromDictSteps(d, 3) == FromDictSteps(d, 0);
  }

  /** `from_dict`: the fields, then the constructor's checks. */
  function FromDict(d: Dict): (r: Result<Lead, string>)
    ensures r.Ok? ==> ValidLead(r.value)
  {
    match FromDictFields(d)
    case Err(e) => Err(e)
    case Ok(l) =>
      NewLeadSpec(l);
      NewLead(l)
  }

  /** What a successful `from_dict` holds: each field read from the
      dictionary, stripped, with the enums converted and the defaults for a
      missing urgency and client id. */
  lemma FromDictFieldsValue(d: Dict)
    requires FromDictFields(d).Ok?
    ensures ParseSource(Text(GetOr(d, "source", VStr("")))).Ok?
    ensures ParseUrgency(GetOr(d, "urgency", VStr("UNKNOWN"))).Ok?
    ensures FromDictFields(d).value
            == Lead(Text(GetOr(d, "lead_id", VStr(""))), ParseSource(Text(GetOr(d, "source", VStr("")))).value,
                    Text(GetOr(d, "received_at", VStr(""))), Text(GetOr(d, "from_address", VStr(""))),
                    Text(GetOr(d, "subject", VStr(""))), Text(GetOr(d, "lead_text", VStr(""))),
                    Text(GetOr(d, "raw_ref", VStr(""))), ParseUrgency(GetOr(d, "urgency", VStr("UNKNOWN"))).value,
                    OptionalStr(GetOr(d, "client_id", VNone), None))
  {
    var leadId := RequireNonEmpty(GetOr(d, "lead_id", VStr("")), "lead_id", None);
    var sourceText := RequireNonEmpty(GetOr(d, "source", VStr("")), "source", None);
    var receivedAt := RequireNonEmpty(GetOr(d, "received_at", VStr("")), "received_at", None);
    var fromAddress := RequireNonEmpty(GetOr(d, "from_address", VStr("")), "from_address", None);
    var subject := RequireNonEmpty(GetOr(d, "subject", VStr("")), "subject", None);
    var leadText := RequireNonEmpty(GetOr(d, "lead_text", VStr("")), "lead_text", None);
    var rawRef := RequireNonEmpty(GetOr(d, "raw_ref", VStr("")), "raw_ref", None);
    var urgency := ParseUrgency(GetOr(d, "urgency", VStr("UNKNOWN")));
    FromDictFieldsUnfold(d);
    if leadId.Err? {
    } else if sourceText.Err? {
    } else if ParseSource(sourceText.value).Err? {
    } else if receivedAt.Err? {
    } else if fromAddress.Err? {
    } else if subject.Err? {
    } else if leadText.Err? {
    } else if rawRef.Err? {
    } else if urgency.Err? {
    }
  }

  /** `from_dict` gets through its fields when every required one is
      present and non-blank and both enums convert. */
  lemma FromDictFieldsAccept(d: Dict)
    requires Accepts(GetOr(d, "lead_id", VStr("")), None) && Accepts(GetOr(d, "source", VStr("")), None)
    requires ParseSource(Text(GetOr(d, "source", VStr("")))).Ok?
    requires Accepts(GetOr(d, "received_at", VStr("")), None) && Accepts(GetOr(d, "from_address", VStr("")), None)
    requires Accepts(GetOr(d, "subject", VStr("")), None) && Accepts(GetOr(d, "lead_text", VStr("")), None)
    requires Accepts(GetOr(d, "raw_ref", VStr("")), None)
    requires ParseUrgency(GetOr(d, "urgency", VStr("UNKNOWN"))).Ok?
    ensures FromDictFields(d).Ok?
  {
    var sourceText := RequireNonEmpty(GetOr(d, "source", VStr("")), "source", None);
    assert sourceText.Ok? && sourceText.value == Text(GetOr(d, "source", VStr("")));
    FromDictFieldsUnfold(d);
  }

  /** A missing urgency reads as `UNKNOWN`. */
  lemma FromDictDefaultUrgency(d: Dict)
    requires FromDict(d).Ok?
    requires "urgency" !in Keys(d)
    ensures FromDict(d).value.urgency == Unknown
  {
    assert GetOr(d, "urgency", VStr("UNKNOWN")) == VStr("UNKNOWN");
    FromDictFieldsValue(d);
    NewLeadSpec(FromDictFields(d).value);
  }

  /** A source that is no member's value is rejected. */
  lemma FromDictUnknownSource(d: Dict)
    requires forall src: LeadSource :: Text(GetOr(d, "source", VStr(""))) != SourceValue(src)
    ensures FromDict(d).Err?
  {
    if FromDictFields(d).Ok? {
      FromDictFieldsValue(d);
    }
  }

  /** Reading `to_dict`'s output back finds the id, the source and the timestamp where they were put. */
  lemma ToDictReadsHead(l: Lead)
    ensures GetOr(ToDict(l), "lead_id", VStr("")) == VStr(l.leadId)
    ensures GetOr(ToDict(l), "source", VStr("")) == VStr(SourceValue(l.source))
    ensures GetOr(ToDict(l), "received_at", VStr("")) == VStr(l.receivedAt)
  {
    GetIndex(ToDict(l), 0);
    GetIndex(ToDict(l), 1);
    GetIndex(ToDict(l), 2);
  }

  /** Reading `to_dict`'s output back finds the sender, the subject and the text where they were put. */
  lemma ToDictReadsBody(l: Lead)
    ensures GetOr(ToDict(l), "from_address", VStr("")) == VStr(l.fromAddress)
    ensures GetOr(ToDict(l), "subject", VStr("")) == VStr(l.subject)
    ensures GetOr(ToDict(l), "lead_text", VStr("")) == VStr(l.leadText)
  {
    GetIndex(ToDict(l), 3);
    GetIndex(ToDict(l), 4);
    GetIndex(ToDict(l), 5);
  }

  /** Reading `to_dict`'s output back finds the reference, the urgency and the client id where they were put. */
  lemma ToDictReadsTail(l: Lead)
    ensures GetOr(ToDict(l), "raw_ref", VStr("")) == VStr(l.rawRef)
    ensures GetOr(ToDict(l), "urgency", VStr("UNKNOWN")) == VStr(UrgencyValue(l.urgency))
    ensures GetOr(ToDict(l), "client_id", VNone) == if l.clientId.Some? then VStr(l.clientId.value) else VNone
  {
    GetIndex(ToDict(l), 6);
    GetIndex(ToDict(l), 7);
    GetIndex(ToDict(l), 8);
  }

  /** The dictionary holds `l`'s fields under `to_dict`'s keys (wherever
      they are, and whatever else it holds). */
  predicate Holds(d: Dict, l: Lead) {
    GetOr(d, "lead_id", VStr("")) == VStr(l.leadId)
    && GetOr(d, "source", VStr("")) == VStr(SourceValue(l.source))
    && GetOr(d, "received_at", VStr("")) == VStr(l.receivedAt)
    && GetOr(d, "from_address", VStr("")) == VStr(l.fromAddress)
    && GetOr(d, "subject", VStr("")) == VStr(l.subject)
    && GetOr(d, "lead_text", VStr("")) == VStr(l.leadText)
    && GetOr(d, "raw_ref", VStr("")) == VStr(l.rawRef)
    && GetOr(d, "urgency", VStr("UNKNOWN")) == VStr(UrgencyValue(l.urgency))
    && GetOr(d, "client_id", VNone) == if l.clientId.Some? then VStr(l.clientId.value) else VNone
  }

  /** A lead as it is stored after `make_lead` or `from_dict`: valid, with
      stripped fields, and a client id that is absent or stripped and
      non-blank. */
  predicate Stored(l: Lead) {
    ValidLead(l)
    && IsStripped(l.leadId) && IsStripped(l.receivedAt) && IsStripped(l.fromAddress)
    && IsStripped(l.subject) && IsStripped(l.leadText) && IsStripped(l.rawRef)
    && (l.clientId.Some? ==> l.clientId.value != [] && IsStripped(l.clientId.value))
  }

  lemma ToDictHolds(l: Lead)
    ensures Holds(ToDict(l), l)
  {
    ToDictReadsHead(l);
    ToDictReadsBody(l);
    ToDictReadsTail(l);
  }

  /** The fields of a valid lead, held in a dictionary, pass `from_dict`'s
      checks. */
  lemma HeldAccepted(d: Dict, l: Lead)
    requires ValidLead(l) && Holds(d, l)
    ensures FromDictFields(d).Ok?
  {
    SourceValueStripped(l.source);
    SourceRoundTrip(l.source);
    UrgencyRoundTrip(l.urgency);
    FromDictFieldsAccept(d);
  }

  /** What `from_dict` makes of a lead's fields: every text stripped and a
      blank client id dropped, since the constructor checks the fields but
      stores them as given. */
  function Normalized(l: Lead): (r: Lead)
    ensures r.source == l.source && r.urgency == l.urgency
  {
    Lead(Strip(l.leadId), l.source, Strip(l.receivedAt), Strip(l.fromAddress), Strip(l.subject),
         Strip(l.leadText), Strip(l.rawRef), l.urgency,
         OptionalStr(if l.clientId.Some? then VStr(l.clientId.value) else VNone, None))
  }

  /** A dictionary holding a valid lead's fields reads back as the lead
      with its texts stripped. */
  lemma HeldReadBackNormalized(d: Dict, l: Lead)
    requires ValidLead(l) && Holds(d, l)
    ensures FromDict(d) == Ok(Normalized(l))
  {
    HeldAccepted(d, l);
    FromDictFieldsValue(d);
    SourceValueStripped(l.source);
    SourceRoundTrip(l.source);
    UrgencyRoundTrip(l.urgency);
    assert FromDictFields(d) == Ok(Normalized(l));
    FieldOkStrip(l.leadId, 64);
    FieldOkStrip(l.receivedAt, 32);
    FieldOkStrip(l.fromAddress, 256);
    FieldOkStrip(l.subject, 500);
    FieldOkStrip(l.leadText, 20000);
    FieldOkStrip(l.rawRef, 500);
    NewLeadSpec(Normalized(l));
  }

  /** Normalizing a stored lead changes nothing. */
  lemma NormalizedStored(l: Lead)
    requires Stored(l)
    ensures Normalized(l) == l
  {
    StripOfStripped(l.leadId);
    StripOfStripped(l.receivedAt);
    StripOfStripped(l.fromAddress);
    StripOfStripped(l.subject);
    StripOfStripped(l.leadText);
    StripOfStripped(l.rawRef);
    if l.clientId.Some? {
      StripOfStripped(l.clientId.value);
    }
  }

  /** A dictionary holding a stored lead's fields reads back as that lead. */
  lemma HeldReadBack(d: Dict, l: Lead)
    requires Stored(l) && Holds(d, l)
    ensures FromDict(d) == Ok(l)
  {
    HeldReadBackNormalized(d, l);
    NormalizedStored(l);
  }


  /** Any valid lead comes back from `from_dict(to_dict(lead))` with its
      texts stripped. */
  lemma RoundTripNormalizes(l: Lead)
    requires ValidLead(l)
    ensures FromDict(ToDict(l)) == Ok(Normalized(l))
  {
    ToDictHolds(l);
    HeldReadBackNormalized(ToDict(l), l);
  }

  /** A stored lead survives `from_dict(to_dict(lead))`. */
  lemma RoundTrip(l: Lead)
    requires Stored(l)
    ensures FromDict(ToDict(l)) == Ok(l)
  {
    ToDictHolds(l);
    HeldReadBack(ToDict(l), l);
  }

  /** `make_lead`. `freshId` stands for `uuid4().hex`, a 32-digit hex string,
      and `now` for the current UTC time. */
  function MakeLead(source: LeadSource, fromAddress: string, subject: string, leadText: string, rawRef: string,
                    receivedAt: Option<string>, leadId: Option<string>, urgency: Urgency, clientId: Option<string>,
                    freshId: string, now: string): Result<Lead, string>
    requires |freshId| == 32
  {
    var id := OrDefault(leadId, freshId);
    var received := OrDefault(receivedAt, now);
    var addr :- RequireNonEmpty(VStr(fromAddress), "from_address", Some(256));
    var subj :- RequireNonEmpty(VStr(subject), "subject", Some(500));
    var text :- RequireNonEmpty(VStr(leadText), "lead_text", Some(20000));
    var origin :- RequireNonEmpty(VStr(rawRef), "raw_ref", Some(500));
    NewLead(Lead(id, source, received, addr, subj, text, origin, urgency,
                 OptionalStr(if clientId.Some? then VStr(clientId.value) else VNone, None)))
  }

  /** `given or fallback` on an optional text, as `make_lead` applies it to
      the caller's id and timestamp: the given text when it is non-empty. */
  function OrDefault(given: Option<string>, fallback: string): (r: string)
    ensures given.Some? && given.value != [] ==> r == given.value
    ensures given.None? || given.value == [] ==> r == fallback
  {
    if given.Some? && given.value != [] then given.value else fallback
  }

  /** `make_lead` fails at its own checks unless the four texts are fine,
      and otherwise hands the constructor the stripped texts. */
  lemma MakeLeadStaged(source: LeadSource, fromAddress: string, subject: string, leadText: string, rawRef: string,
                     receivedAt: Option<string>, leadId: Option<string>, urgency: Urgency, clientId: Option<string>,
                     freshId: string, now: string)
    requires |freshId| == 32
    ensures FieldOk(fromAddress, 256) && FieldOk(subject, 500) && FieldOk(leadText, 20000) && FieldOk(rawRef, 500) ==>
              MakeLead(source, fromAddress, subject, leadText, rawRef, receivedAt, leadId, urgency, clientId, freshId, now)
              == NewLead(Lead(OrDefault(leadId, freshId), source, OrDefault(receivedAt, now), Strip(fromAddress),
                              Strip(subject), Strip(leadText), Strip(rawRef), urgency,
                              OptionalStr(if clientId.Some? then VStr(clientId.value) else VNone, None)))
    ensures !(FieldOk(fromAddress, 256) && FieldOk(subject, 500) && FieldOk(leadText, 20000) && FieldOk(rawRef, 500)) ==>
              MakeLead(source, fromAddress, subject, leadText, rawRef, receivedAt, leadId, urgency, clientId, freshId, now).Err?
  {
    FieldCheck(fromAddress, "from_address", 256);
    FieldCheck(subject, "subject", 500);
    FieldCheck(leadText, "lead_text", 20000);
    FieldCheck(rawRef, "raw_ref", 500);
    if !FieldOk(fromAddress, 256) {
    } else if !FieldOk(subject, 500) {
    } else if !FieldOk(leadText, 20000) {
    } else if !FieldOk(rawRef, 500) {
    }
  }

  /** Stripping does not change whether a field is fine. */
  lemma FieldOkStrip(s: string, maxLen: nat)
    ensures FieldOk(Strip(s), maxLen) <==> FieldOk(s, maxLen)
  {
    StripIdempotent(s);
  }

  /** `make_lead` succeeds exactly when the four texts, the id and the
      timestamp it passes on are all fine. */
  lemma MakeLeadAccepts(source: LeadSource, fromAddress: string, subject: string, leadText: string, rawRef: string,
                     receivedAt: Option<string>, leadId: Option<string>, urgency: Urgency, clientId: Option<string>,
                     freshId: string, now: string)
    requires |freshId| == 32
    ensures MakeLead(source, fromAddress, subject, leadText, rawRef, receivedAt, leadId, urgency, clientId, freshId, now).Ok?
            <==> FieldOk(fromAddress, 256) && FieldOk(subject, 500) && FieldOk(leadText, 20000) && FieldOk(rawRef, 500)
                 && FieldOk(OrDefault(leadId, freshId), 64) && FieldOk(OrDefault(receivedAt, now), 32)
  {
    MakeLeadStaged(source, fromAddress, subject, leadText, rawRef, receivedAt, leadId, urgency, clientId, freshId, now);
    var l := Lead(OrDefault(leadId, freshId), source, OrDefault(receivedAt, now), Strip(fromAddress),
                  Strip(subject), Strip(leadText), Strip(rawRef), urgency,
                  OptionalStr(if clientId.Some? then VStr(clientId.value) else VNone, None));
    NewLeadSpec(l);
    FieldOkStrip(fromAddress, 256);
    FieldOkStrip(subject, 500);
    FieldOkStrip(leadText, 20000);
    FieldOkStrip(rawRef, 500);
  }

  /** A made lead stores the stripped texts, the given source and urgency,
      an id and a timestamp from the caller when they are non-empty, and is
      valid. */
  lemma MakeLeadSpec(source: LeadSource, fromAddress: string, subject: string, leadText: string, rawRef: string,
                     receivedAt: Option<string>, leadId: Option<string>, urgency: Urgency, clientId: Option<string>,
                     freshId: string, now: string)
    requires |freshId| == 32
    requires MakeLead(source, fromAddress, subject, leadText, rawRef, receivedAt, leadId, urgency, clientId, freshId, now).Ok?
    ensures var l := MakeLead(source, fromAddress, subject, leadText, rawRef, receivedAt, leadId, urgency, clientId, freshId, now).value;
            ValidLead(l)
            && l.fromAddress == Strip(fromAddress) && l.subject == Strip(subject)
            && l.leadText == Strip(leadText) && l.rawRef == Strip(rawRef)
            && l.source == source && l.urgency == urgency
            && l.leadId == OrDefault(leadId, freshId) && l.receivedAt == OrDefault(receivedAt, now)
            && (l.clientId.None? <==> clientId.None? || Strip(clientId.value) == [])
  {
    MakeLeadStaged(source, fromAddress, subject, leadText, rawRef, receivedAt, leadId, urgency, clientId, freshId, now);
    var l := Lead(OrDefault(leadId, freshId), source, OrDefault(receivedAt, now), Strip(fromAddress),
                  Strip(subject), Strip(leadText), Strip(rawRef), urgency,
                  OptionalStr(if clientId.Some? then VStr(clientId.value) else VNone, None));
    NewLeadSpec(l);
  }

  /** The constructor's first check rejects a blank id. */
  lemma BlankIdConstructed(l: Lead)
    requires Strip(l.leadId) == []
    ensures NewLead(l) == Err("lead_id is required (got empty)")
  {
    NewLeadUnfold(l);
    RequireNonEmptyErrors(VStr(l.leadId), "lead_id", Some(64));
    assert "lead_id" + " is required (got empty)" == "lead_id is required (got empty)";
  }

  /** A caller id made only of whitespace, such as `"  "`, is truthy, so the
      factory keeps it instead of drawing a fresh one, and the constructor
      then rejects it. */
  lemma BlankIdRejected(source: LeadSource, fromAddress: string, subject: string, leadText: string, rawRef: string,
                        receivedAt: Option<string>, leadId: string, urgency: Urgency, clientId: Option<string>,
                        freshId: string, now: string)
    requires |freshId| == 32
    requires leadId != [] && Strip(leadId) == []
    requires FieldOk(fromAddress, 256) && FieldOk(subject, 500) && FieldOk(leadText, 20000) && FieldOk(rawRef, 500)
    ensures MakeLead(source, fromAddress, subject, leadText, rawRef, receivedAt, Some(leadId), urgency, clientId, freshId, now)
            == Err("lead_id is required (got empty)")
  {
    MakeLeadStaged(source, fromAddress, subject, leadText, rawRef, receivedAt, Some(leadId), urgency, clientId, freshId, now);
    BlankIdConstructed(Lead(leadId, source, OrDefault(receivedAt, now), Strip(fromAddress), Strip(subject),
                            Strip(leadText), Strip(rawRef), urgency,
                            OptionalStr(if clientId.Some? then VStr(clientId.value) else VNone, None)));
  }
}
