/** The form record handed to the prompt builder, how it is read from the
    form, and the gate that decides whether the builder runs. */
module Form {
  import opened Strings

  /** The answers of the form: twelve text fields and six checkboxes. */
  datatype FormRecord = FormRecord(
    mainKeyword: string,
    relatedKeywords: string,
    blogTitle: string,
    targetAudience: string,
    postGoals: string,
    searchIntent: string,
    funnelStage: string,
    wordCount: string,
    toneStyle: string,
    businessGoal: string,
    callToAction: string,
    customInstructions: string,
    featuredSnippet: bool,
    schemaMarkup: bool,
    peopleAlsoAsk: bool,
    internalLinks: bool,
    externalLinks: bool,
    faqSection: bool)

  /** The free-text fields carry no surrounding whitespace. */
  predicate IsTrimmed(data: FormRecord)
  {
    HasNoOuterWhitespace(data.mainKeyword)
    && HasNoOuterWhitespace(data.relatedKeywords)
    && HasNoOuterWhitespace(data.blogTitle)
    && HasNoOuterWhitespace(data.targetAudience)
    && HasNoOuterWhitespace(data.postGoals)
    && HasNoOuterWhitespace(data.callToAction)
    && HasNoOuterWhitespace(data.customInstructions)
  }

  /** Reading the form: the seven free-text inputs are trimmed; the values of
      the five drop-downs and the six checkboxes are taken as they are.
      `raw` holds the inputs' current values. */
  function CollectFormData(raw: FormRecord): (data: FormRecord)
    ensures IsTrimmed(data)
    ensures data.mainKeyword == Trim(raw.mainKeyword) && data.relatedKeywords == Trim(raw.relatedKeywords)
    ensures data.blogTitle == Trim(raw.blogTitle) && data.targetAudience == Trim(raw.targetAudience)
    ensures data.postGoals == Trim(raw.postGoals) && data.callToAction == Trim(raw.callToAction)
    ensures data.customInstructions == Trim(raw.customInstructions)
    ensures data.searchIntent == raw.searchIntent && data.funnelStage == raw.funnelStage
    ensures data.wordCount == raw.wordCount && data.toneStyle == raw.toneStyle
    ensures data.businessGoal == raw.businessGoal
    ensures data.featuredSnippet == raw.featuredSnippet && data.schemaMarkup == raw.schemaMarkup
    ensures data.peopleAlsoAsk == raw.peopleAlsoAsk && data.internalLinks == raw.internalLinks
    ensures data.externalLinks == raw.externalLinks && data.faqSection == raw.faqSection
  {
    FormRecord(
      Trim(raw.mainKeyword), Trim(raw.relatedKeywords), Trim(raw.blogTitle),
      Trim(raw.targetAudience), Trim(raw.postGoals),
      raw.searchIntent, raw.funnelStage, raw.wordCount, raw.toneStyle, raw.businessGoal,
      Trim(raw.callToAction), Trim(raw.customInstructions),
      raw.featuredSnippet, raw.schemaMarkup, raw.peopleAlsoAsk,
      raw.internalLinks, raw.externalLinks, raw.faqSection)
  }

  /** Reading an already trimmed form changes nothing. */
  lemma CollectFormDataIdempotent(raw: FormRecord)
    ensures CollectFormData(CollectFormData(raw)) == CollectFormData(raw)
  {
    var data := CollectFormData(raw);
    TrimFixesTrimmed(data.mainKeyword);
    TrimFixesTrimmed(data.relatedKeywords);
    TrimFixesTrimmed(data.blogTitle);
    TrimFixesTrimmed(data.targetAudience);
    TrimFixesTrimmed(data.postGoals);
    TrimFixesTrimmed(data.callToAction);
    TrimFixesTrimmed(data.customInstructions);
  }

  /** Which of the two alerts the gate raises, if any. */
  datatype Verdict = Accepted | MissingKeyword | KeywordTooShort

  /** The submit gate: a missing main keyword and one shorter than two
      UTF-16 code units are refused, each with its own message. */
  function ValidateFormData(data: FormRecord): (v: Verdict)
    ensures v == MissingKeyword <==> data.mainKeyword == ""
    ensures v == Accepted <==>
      |data.mainKeyword| >= 2 || (|data.mainKeyword| == 1 && IsAstral(data.mainKeyword[0]))
  {
    Utf16AtLeastTwo(data.mainKeyword);
    if data.mainKeyword == "" then MissingKeyword
    else if Utf16Length(data.mainKeyword) < 2 then KeywordTooShort
    else Accepted
  }

  /** The check run when the keyword input loses focus: at least two UTF-16
      code units once surrounding whitespace is removed. */
  function ValidateMainKeyword(keyword: string): (ok: bool)
    ensures ok <==> |Trim(keyword)| >= 2 || (|Trim(keyword)| == 1 && IsAstral(Trim(keyword)[0]))
    ensures (forall i :: 0 <= i < |keyword| ==> IsTrimmable(keyword[i])) ==> !ok
  {
    Utf16AtLeastTwo(Trim(keyword));
    Utf16Length(Trim(keyword)) >= 2
  }

  /** The focus-loss check and the submit gate agree on every raw input. */
  lemma FocusCheckAgreesWithGate(raw: FormRecord)
    ensures ValidateMainKeyword(raw.mainKeyword) <==> ValidateFormData(CollectFormData(raw)) == Accepted
  {
  }
}
