/** `build_reply`: the acknowledgement sent to a lead, one of three fixed
    templates chosen by tone, signed with the given signature. */
module Reply {
  import opened Wrappers
  import opened Strings
  import opened LeadContracts

  /** The keys of `TEMPLATES`. */
  datatype Tone = Professional | Friendly | Direct

  function ToneName(t: Tone): string {
    match t
    case Professional => "professional"
    case Friendly => "friendly"
    case Direct => "direct"
  }

  /** Membership in `TEMPLATES`. */
  function ParseTone(key: string): (r: Option<Tone>)
    ensures r.Some? ==> ToneName(r.value) == key
  {
    if key == "professional" then Some(Professional)
    else if key == "friendly" then Some(Friendly)
    else if key == "direct" then Some(Direct)
    else None
  }

  const Placeholder: string := "{signature}"

  /** The text of each template before its `{signature}` field. */
  function TemplateHead(t: Tone): string {
    match t
    case Professional =>
      "Hello,\n\n"
      + "Thanks for reaching out \U{2014} we\U{2019}ve received your message and are reviewing it now.\n"
      + "If you can share any additional details (timing, screenshots, or key requirements), it will help us respond faster.\n\n"
      + "Best regards,\n"
    case Friendly =>
      "Hi there,\n\n"
      + "Thanks for reaching out! We got your message and we\U{2019}re taking a look now.\n"
      + "If you can share a bit more detail (timing, screenshots, what you\U{2019}re trying to achieve), we can move faster.\n\n"
      + "Thanks,\n"
    case Direct =>
      "Received \U{2014} thank you.\n\n"
      + "We\U{2019}re reviewing this now. If you can send key details (deadline, screenshots, requirements), we\U{2019}ll respond faster.\n\n"
      + "- "
  }

  /** What follows the field: every template ends its signature line. */
  const TemplateTail: string := "\n"

  /** `TEMPLATES[t]`. */
  function Template(t: Tone): string {
    TemplateHead(t) + Placeholder + TemplateTail
  }

  /** `(tone or "professional").strip().lower()`; an absent tone is `None`. */
  function ToneKey(tone: Option<string>): string {
    var given := if tone.None? || tone.value == [] then "professional" else tone.value;
    Lower(Strip(given))
  }

  /** The template chosen: the one named by the key, else `professional`. */
  function SelectTone(tone: Option<string>): Tone {
    match ParseTone(ToneKey(tone))
    case Some(t) => t
    case None => Professional
  }

  /** `build_reply(lead, tone, signature)`: `str.format` puts the signature
      in the place of the template's one field. The lead plays no part. */
  function BuildReply(lead: Lead, tone: Option<string>, signature: string): string {
    var t := SelectTone(tone);
    TemplateHead(t) + signature + TemplateTail
  }

  // ---------------------------------------------------------------------------
  // Properties
  // ---------------------------------------------------------------------------

  /** The reply is the chosen template with its `{signature}` field replaced
      by the signature, which therefore occurs in it. */
  lemma BuildReplyShape(lead: Lead, tone: Option<string>, signature: string)
    ensures var tpl := Template(SelectTone(tone));
      var k := |TemplateHead(SelectTone(tone))|;
      OccursAt(tpl, Placeholder, k)
      && BuildReply(lead, tone, signature) == tpl[..k] + signature + tpl[k + |Placeholder|..]
    ensures Contains(BuildReply(lead, tone, signature), signature)
  {
    Splice(TemplateHead(SelectTone(tone)), signature);
  }

  lemma Splice(h: string, signature: string)
    ensures var tpl := h + Placeholder + TemplateTail;
      OccursAt(tpl, Placeholder, |h|)
      && h + signature + TemplateTail == tpl[..|h|] + signature + tpl[|h| + |Placeholder|..]
      && Contains(h + signature + TemplateTail, signature)
  {
    var tpl := h + Placeholder + TemplateTail;
    assert tpl[..|h|] == h;
    assert tpl[|h|..|h| + |Placeholder|] == Placeholder;
    assert tpl[|h| + |Placeholder|..] == TemplateTail;
    var r := h + signature + TemplateTail;
    assert OccursAt(r, signature, |h|) by {
      assert r[|h|..|h| + |signature|] == signature;
    }
  }

  lemma ToneNameNormal(t: Tone)
    ensures Strip(ToneName(t)) == ToneName(t) && Lower(ToneName(t)) == ToneName(t)
  {
    StripOfStripped(ToneName(t));
    assert forall i :: 0 <= i < |ToneName(t)| ==> Lower(ToneName(t))[i] == ToneName(t)[i];
  }

  /** Naming a tone selects it. */
  lemma SelectNamedTone(t: Tone)
    ensures SelectTone(Some(ToneName(t))) == t
  {
    ToneNameNormal(t);
  }

  /** No tone, an empty one or one that does not name a template after
      stripping and lower-casing selects `professional`. */
  lemma SelectDefault(tone: Option<string>)
    requires tone.None? || tone.value == [] || ParseTone(Lower(Strip(tone.value))).None?
    ensures SelectTone(tone) == Professional
  {
    if tone.None? || tone.value == [] {
      ToneNameNormal(Professional);
    }
  }

  /** Case and surrounding whitespace do not matter. */
  lemma SelectIgnoresCaseAndSpace(a: string, b: string)
    requires Lower(Strip(a)) == Lower(Strip(b))
    ensures SelectTone(Some(a)) == SelectTone(Some(b))
  {
    ToneNameNormal(Professional);
    if a == [] || b == [] {
      StripCharacterization(a);
      StripCharacterization(b);
    }
  }
}
