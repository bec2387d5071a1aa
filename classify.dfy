/** `classify_urgency`: a lead is urgent when one of a fixed list of keywords
    occurs in its lower-cased subject and text, and normal otherwise. */
module Classify {
  import opened Strings
  import opened LeadContracts

  /** `URGENT_KEYWORDS`, in their order. */
  const UrgentKeywords: seq<string> := [
    "urgent", "asap", "immediately", "today", "right away",
    "down", "outage", "broken", "can't access", "cannot access",
    "payment failed", "failed payment", "error", "deadline"
  ]

  /** The keyword loop: some keyword of `kws`, tried in order, occurs in
      `text`. */
  predicate AnyOccurs(text: string, kws: seq<string>)
    decreases |kws|
  {
    kws != [] && (Contains(text, kws[0]) || AnyOccurs(text, kws[1..]))
  }

  /** The text the keywords are looked for in. */
  function SearchText(lead: Lead): string {
    Lower(lead.subject + "\n" + lead.leadText)
  }

  /** `classify_urgency(lead)`: only ever one of the two labels. */
  function ClassifyUrgency(lead: Lead): (r: Urgency)
    ensures r == Urgent || r == Normal
  {
    if AnyOccurs(SearchText(lead), UrgentKeywords) then Urgent else Normal
  }

  /** The loop finds a keyword exactly when one occurs. */
  lemma {:induction false} AnyOccursSpec(text: string, kws: seq<string>)
    ensures AnyOccurs(text, kws) <==> exists i :: 0 <= i < |kws| && Contains(text, kws[i])
    decreases |kws|
  {
    if kws != [] {
      AnyOccursSpec(text, kws[1..]);
      assert forall i :: 1 <= i < |kws| ==> kws[1..][i - 1] == kws[i];
      if exists i :: 0 <= i < |kws| && Contains(text, kws[i]) {
        var i :| 0 <= i < |kws| && Contains(text, kws[i]);
        if i > 0 {
          assert Contains(text, kws[1..][i - 1]);
        }
      }
    }
  }

  /** Urgent exactly when some keyword occurs in the lower-cased subject,
      newline and text. */
  lemma ClassifyUrgencySpec(lead: Lead)
    ensures ClassifyUrgency(lead) == Urgent <==>
      exists i :: 0 <= i < |UrgentKeywords| && Contains(SearchText(lead), UrgentKeywords[i])
    ensures ClassifyUrgency(lead) == Normal <==>
      forall i :: 0 <= i < |UrgentKeywords| ==> !Contains(SearchText(lead), UrgentKeywords[i])
  {
    AnyOccursSpec(SearchText(lead), UrgentKeywords);
  }

  /** No keyword spans a line break. */
  lemma KeywordsOneLine()
    ensures forall i :: 0 <= i < |UrgentKeywords| ==> '\n' !in UrgentKeywords[i]
  {
  }

  lemma SearchTextParts(lead: Lead)
    ensures SearchText(lead) == Lower(lead.subject) + "\n" + Lower(lead.leadText)
  {
    LowerConcat(lead.subject + "\n", lead.leadText);
    LowerConcat(lead.subject, "\n");
    assert Lower("\n") == "\n";
  }

  /** As no keyword holds a newline, a lead is urgent exactly when a keyword
      occurs in its lower-cased subject or in its lower-cased text. */
  lemma ClassifyBySubjectOrText(lead: Lead)
    ensures ClassifyUrgency(lead) == Urgent <==>
      exists i :: 0 <= i < |UrgentKeywords| &&
        (Contains(Lower(lead.subject), UrgentKeywords[i]) || Contains(Lower(lead.leadText), UrgentKeywords[i]))
  {
    ClassifyUrgencySpec(lead);
    SearchTextParts(lead);
    KeywordsOneLine();
    forall i | 0 <= i < |UrgentKeywords|
      ensures Contains(SearchText(lead), UrgentKeywords[i]) <==>
        (Contains(Lower(lead.subject), UrgentKeywords[i]) || Contains(Lower(lead.leadText), UrgentKeywords[i]))
    {
      ContainsAroundSeparator(Lower(lead.subject), '\n', Lower(lead.leadText), UrgentKeywords[i]);
    }
  }

  /** Letter case does not matter: leads whose subjects and texts agree once
      lower-cased get the same label. */
  lemma ClassifyIgnoresCase(a: Lead, b: Lead)
    requires Lower(a.subject) == Lower(b.subject) && Lower(a.leadText) == Lower(b.leadText)
    ensures ClassifyUrgency(a) == ClassifyUrgency(b)
  {
    SearchTextParts(a);
    SearchTextParts(b);
  }
}
