/** The prompt builder: a form record becomes a sectioned SEO content brief.

    The brief is described as a list of lines. Every line but the closing
    sentence ends in a line feed; blank lines separate the opening from the
    sections and the sections from each other. */
module Brief {
  import opened Strings
  import opened Form

  /** The fixed wording of the brief, one phrase per piece of text the
      program always writes the same way. */
  datatype Phrase =
    BriefMarker | IntroOpening | ClusterClause | DefaultAudience | TargetAudienceLabel |
    SearchIntentLabel | FunnelStageLabel | PostGoalsLabel | PrimaryGoalLabel | CallToActionLabel |
    UseTitleLabel | WordCountLabel | WordsSuffix | ToneLabel | AudienceHeader | ObjectivesHeader |
    SeoHeader | StructureHeader | EngagementHeader | TechnicalHeader | AdditionalHeader |
    GoalsHeader | TitleSeoNote | CreateTitleOptions | ChooseBestTitle | MetaDescription |
    KeywordPlacement | KeywordDensity | SemanticKeywords | SchemaBullet | SnippetBullet |
    HookIntro | H1Bullet | SubheadingBullet | PeopleAlsoAskBullet | InternalLinksBullet |
    ExternalLinksBullet | CredibilityBullet | FaqBullet | Scannability | ShortParagraphs |
    ActionableTakeaways | RelevantExamples | MobileFormatting | ConclusionBullet |
    ValuePropositionBullet | TopicalAuthority | ComprehensiveCoverage | OrganicTraffic |
    ConversionSupport | ClosingSentence

  function Wording(p: Phrase): string
  {
    match p
    case BriefMarker => "\U{1F9E0} SEO CONTENT BRIEF: "
    case IntroOpening => "You are an expert SEO strategist and content writer. Create a comprehensive, Google-optimized blog post targeting the primary keyword \""
    case ClusterClause => " and supporting keyword cluster: "
    case DefaultAudience => "General audience interested in "
    case TargetAudienceLabel => "\U{2022} Target Audience: "
    case SearchIntentLabel => "\U{2022} Search Intent: "
    case FunnelStageLabel => "\U{2022} Funnel Stage: "
    case PostGoalsLabel => "\U{2022} Post Goals & Content Type: "
    case PrimaryGoalLabel => "\U{2022} Primary Goal: "
    case CallToActionLabel => "\U{2022} Call-to-Action: "
    case UseTitleLabel => "\U{2022} Use this specific title: \""
    case WordCountLabel => "\U{2022} Word Count: "
    case WordsSuffix => " words"
    case ToneLabel => "\U{2022} Tone: "
    case AudienceHeader => "\U{1F465} TARGET AUDIENCE & INTENT:"
    case ObjectivesHeader => "\U{1F3AF} BUSINESS OBJECTIVES:"
    case SeoHeader => "\U{1F9F0} SEO & STRUCTURAL REQUIREMENTS:"
    case StructureHeader => "\U{1F4D0} CONTENT STRUCTURE:"
    case EngagementHeader => "\U{2728} ENGAGEMENT & UX ELEMENTS:"
    case TechnicalHeader => "\U{2699}\U{FE0F} TECHNICAL SPECIFICATIONS:"
    case AdditionalHeader => "\U{1F4DD} ADDITIONAL REQUIREMENTS:"
    case GoalsHeader => "\U{1F680} CONTENT GOALS:"
    case TitleSeoNote => "\U{2022} Ensure title is SEO-optimized and contains primary keyword"
    case CreateTitleOptions => "\U{2022} Create 3-5 SEO-optimized title options (55-60 characters each) with primary keyword"
    case ChooseBestTitle => "\U{2022} Choose the most compelling title for the post"
    case MetaDescription => "\U{2022} Meta description (150-160 characters) with compelling CTA"
    case KeywordPlacement => "\U{2022} Primary keyword naturally placed in first 100 words"
    case KeywordDensity => "\U{2022} Keyword density: 1-2% (avoid keyword stuffing)"
    case SemanticKeywords => "\U{2022} Use semantic/LSI keywords throughout"
    case SchemaBullet => "\U{2022} Include schema markup suggestions (Article/FAQ/HowTo)"
    case SnippetBullet => "\U{2022} Optimize for featured snippet opportunity"
    case HookIntro => "\U{2022} Hook-driven introduction addressing reader's pain point"
    case H1Bullet => "\U{2022} H1: Main title with primary keyword"
    case SubheadingBullet => "\U{2022} H2/H3 subheadings incorporating related keywords"
    case PeopleAlsoAskBullet => "\U{2022} Answer 3-5 \"People Also Ask\" questions as dedicated sections"
    case InternalLinksBullet => "\U{2022} Include 2-3 strategic internal link opportunities"
    case ExternalLinksBullet => "\U{2022} Add 1-2 external links to authoritative sources"
    case CredibilityBullet => "\U{2022} Include relevant data, statistics, or case studies for credibility"
    case FaqBullet => "\U{2022} Brief FAQ section (3-5 common questions)"
    case Scannability => "\U{2022} Use bullet points and numbered lists for scannability"
    case ShortParagraphs => "\U{2022} Keep paragraphs short (2-3 sentences maximum)"
    case ActionableTakeaways => "\U{2022} Include actionable takeaways and practical tips"
    case RelevantExamples => "\U{2022} Add relevant examples or case studies"
    case MobileFormatting => "\U{2022} Ensure mobile-friendly formatting"
    case ConclusionBullet => "\U{2022} Conclusion with summary and next steps"
    case ValuePropositionBullet => "\U{2022} Clear value proposition throughout"
    case TopicalAuthority => "\U{2022} Establish topical authority in the subject area"
    case ComprehensiveCoverage => "\U{2022} Provide comprehensive, actionable coverage"
    case OrganicTraffic => "\U{2022} Drive organic traffic and user engagement"
    case ConversionSupport => "\U{2022} Support conversion objectives"
    case ClosingSentence => "Please create content that balances SEO optimization with genuine value for readers, ensuring it ranks well while serving the target audience's needs effectively."
  }

  // The lines that carry form values.

  function TitleLine(data: FormRecord): string
  {
    Wording(BriefMarker) + Upper(data.mainKeyword)
  }

  /** The persona sentence up to the quoted main keyword. */
  function IntroHead(data: FormRecord): string
  {
    Wording(IntroOpening) + data.mainKeyword + "\""
  }

  /** The related keywords, mentioned only when there are some. */
  function RelatedClause(data: FormRecord): string
  {
    if data.relatedKeywords != "" then Wording(ClusterClause) + data.relatedKeywords else ""
  }

  function IntroLine(data: FormRecord): string
  {
    IntroHead(data) + RelatedClause(data) + "."
  }

  /** An empty audience falls back to one derived from the main keyword. */
  function AudienceLine(data: FormRecord): string
  {
    Wording(TargetAudienceLabel)
    + (if data.targetAudience != "" then data.targetAudience else Wording(DefaultAudience) + data.mainKeyword)
  }

  function SearchIntentLine(data: FormRecord): string { Wording(SearchIntentLabel) + data.searchIntent }
  function FunnelStageLine(data: FormRecord): string { Wording(FunnelStageLabel) + data.funnelStage }
  function PostGoalsLine(data: FormRecord): string { Wording(PostGoalsLabel) + data.postGoals }
  function PrimaryGoalLine(data: FormRecord): string { Wording(PrimaryGoalLabel) + data.businessGoal }
  function CallToActionLine(data: FormRecord): string { Wording(CallToActionLabel) + data.callToAction }
  function UseTitleLine(data: FormRecord): string { Wording(UseTitleLabel) + data.blogTitle + "\"" }
  function WordCountLine(data: FormRecord): string { Wording(WordCountLabel) + data.wordCount + Wording(WordsSuffix) }
  function ToneLine(data: FormRecord): string { Wording(ToneLabel) + data.toneStyle }


  // The structure of the brief.

  /** A headed block of the brief. */
  datatype Section = Section(header: string, bullets: seq<string>)

  /** An element that is present only when its condition holds. */
  function When<T>(condition: bool, x: T): (r: seq<T>)
    ensures r == [] <==> !condition
  {
    if condition then [x] else []
  }

  /** A section is its header, its bullets and a blank separator line. */
  function SectionLines(s: Section): seq<string>
  {
    [s.header] + s.bullets + [""]
  }

  // Bullets are listed one append at a time, in the order they are written.

  function AudienceSection(data: FormRecord): Section
  {
    Section(Wording(AudienceHeader), [AudienceLine(data)] + [SearchIntentLine(data)] + [FunnelStageLine(data)])
  }

  function ObjectivesSection(data: FormRecord): Section
  {
    Section(Wording(ObjectivesHeader),
      When(data.postGoals != "", PostGoalsLine(data))
      + [PrimaryGoalLine(data)]
      + When(data.callToAction != "", CallToActionLine(data)))
  }

  /** The two title bullets: the given title, or an instruction to invent one. */
  function TitleBullets(data: FormRecord): seq<string>
  {
    if data.blogTitle != "" then [UseTitleLine(data)] + [Wording(TitleSeoNote)]
    else [Wording(CreateTitleOptions)] + [Wording(ChooseBestTitle)]
  }

  function SeoSection(data: FormRecord): Section
  {
    Section(Wording(SeoHeader),
      TitleBullets(data)
      + [Wording(MetaDescription)] + [Wording(KeywordPlacement)] + [Wording(KeywordDensity)] + [Wording(SemanticKeywords)]
      + When(data.schemaMarkup, Wording(SchemaBullet))
      + When(data.featuredSnippet, Wording(SnippetBullet)))
  }

  function StructureSection(data: FormRecord): Section
  {
    Section(Wording(StructureHeader),
      [Wording(HookIntro)] + [Wording(H1Bullet)] + [Wording(SubheadingBullet)]
      + When(data.peopleAlsoAsk, Wording(PeopleAlsoAskBullet))
      + When(data.internalLinks, Wording(InternalLinksBullet))
      + When(data.externalLinks, Wording(ExternalLinksBullet))
      + [Wording(CredibilityBullet)]
      + When(data.faqSection, Wording(FaqBullet)))
  }

  function EngagementSection(): Section
  {
    Section(Wording(EngagementHeader),
      [Wording(Scannability)] + [Wording(ShortParagraphs)] + [Wording(ActionableTakeaways)] + [Wording(RelevantExamples)] + [Wording(MobileFormatting)])
  }

  function TechnicalSection(data: FormRecord): Section
  {
    Section(Wording(TechnicalHeader), [WordCountLine(data)] + [ToneLine(data)] + [Wording(ConclusionBullet)] + [Wording(ValuePropositionBullet)])
  }

  /** The custom instructions, verbatim, as a block of their own. */
  function AdditionalSection(data: FormRecord): Section
  {
    Section(Wording(AdditionalHeader), [data.customInstructions])
  }

  function GoalsSection(): Section
  {
    Section(Wording(GoalsHeader), [Wording(TopicalAuthority)] + [Wording(ComprehensiveCoverage)] + [Wording(OrganicTraffic)] + [Wording(ConversionSupport)])
  }

  /** The title line and the introduction, each followed by a blank line. */
  function Front(data: FormRecord): seq<string>
  {
    [TitleLine(data), "", IntroLine(data), ""]
  }

  /** The custom instructions block, present only when there are some. */
  function AdditionalLines(data: FormRecord): seq<string>
  {
    if data.customInstructions != "" then SectionLines(AdditionalSection(data)) else []
  }

  /** Every line of the brief before the closing sentence: the front, then
      the sections in the order they are written. */
  function Lines(data: FormRecord): seq<string>
  {
    Front(data)
    + SectionLines(AudienceSection(data))
    + SectionLines(ObjectivesSection(data))
    + SectionLines(SeoSection(data))
    + SectionLines(StructureSection(data))
    + SectionLines(EngagementSection())
    + SectionLines(TechnicalSection(data))
    + AdditionalLines(data)
    + SectionLines(GoalsSection())
  }

  /** The brief as one string. */
  function Text(data: FormRecord): string
  {
    Terminated(Lines(data)) + Wording(ClosingSentence)
  }

  // How appending to the text extends the lines it renders.

  lemma FirstLine(before: seq<string>, h: string, x: string)
    ensures Terminated(before + ([h] + [x])) == Terminated(before + [h]) + x + "\n"
  {
    assert before + ([h] + [x]) == before + [h] + [x];
    TerminatedSnoc(before + [h], x);
  }

  lemma FirstLineMaybe(before: seq<string>, h: string, c: bool, x: string)
    ensures Terminated(before + ([h] + When(c, x)))
      == if c then Terminated(before + [h]) + x + "\n" else Terminated(before + [h])
  {
    if c { FirstLine(before, h, x); } else { assert [h] + When(c, x) == [h]; }
  }

  lemma LineAdded(before: seq<string>, h: string, bs: seq<string>, x: string)
    ensures Terminated(before + ([h] + (bs + [x]))) == Terminated(before + ([h] + bs)) + x + "\n"
  {
    assert before + ([h] + (bs + [x])) == before + ([h] + bs) + [x];
    TerminatedSnoc(before + ([h] + bs), x);
  }

  lemma LineMaybeAdded(before: seq<string>, h: string, bs: seq<string>, c: bool, x: string)
    ensures Terminated(before + ([h] + (bs + When(c, x))))
      == if c then Terminated(before + ([h] + bs)) + x + "\n" else Terminated(before + ([h] + bs))
  {
    if c { LineAdded(before, h, bs, x); } else { assert bs + When(c, x) == bs; }
  }

  /** The blank line that closes a section. */
  lemma SectionClosed(before: seq<string>, h: string, bs: seq<string>)
    ensures Terminated(before + SectionLines(Section(h, bs))) == Terminated(before + ([h] + bs)) + "\n"
  {
    assert before + SectionLines(Section(h, bs)) == before + ([h] + bs) + [""];
    TerminatedSnoc(before + ([h] + bs), "");
  }

  /** A last bullet written together with the blank line after it. */
  lemma LastLineClosed(before: seq<string>, h: string, bs: seq<string>, x: string)
    ensures Terminated(before + SectionLines(Section(h, bs + [x]))) == Terminated(before + ([h] + bs)) + x + "\n\n"
  {
    LineAdded(before, h, bs, x);
    SectionClosed(before, h, bs + [x]);
    assert Terminated(before + ([h] + bs)) + x + "\n" + "\n" == Terminated(before + ([h] + bs)) + x + "\n\n";
  }

  /** The custom-instructions block, which starts with the blank line that
      closes the section before it and leaves its own closing blank line to
      the block after it. */
  lemma AdditionalWritten(before: seq<string>, p: string, h: string, x: string)
    requires Terminated(before) == p + "\n"
    ensures Terminated(before + SectionLines(Section(h, [x]))) == p + "\n" + h + "\n" + x + "\n" + "\n"
  {
    assert before + SectionLines(Section(h, [x])) == before + [h] + [x] + [""];
    TerminatedSnoc(before, h);
    TerminatedSnoc(before + [h], x);
    TerminatedSnoc(before + [h] + [x], "");
  }

  lemma FrontWritten(title: string, head: string, clause: string)
    ensures Terminated([title, "", head + clause + ".", ""]) == title + "\n\n" + head + clause + ".\n\n"
  {
    var t := title + "\n\n";
    TerminatedSnoc([], title);
    TerminatedSnoc([title], "");
    assert [title] + [""] == [title, ""];
    TerminatedSnoc([title, ""], head + clause + ".");
    assert [title, ""] + [head + clause + "."] == [title, "", head + clause + "."];
    TerminatedSnoc([title, "", head + clause + "."], "");
    assert [title, "", head + clause + "."] + [""] == [title, "", head + clause + ".", ""];
    assert title + "\n" + "" + "\n" == t;
    assert t + (head + clause + ".") + "\n" + "" + "\n" == t + head + clause + ".\n\n";
  }

  lemma NothingAppended(s: string, e: string)
    requires e == ""
    ensures s + e == s
  {
  }

  // The builder, one method per block of the brief.

  /** The title line and the opening instruction. */
  method WriteOpening(data: FormRecord) returns (prompt: string)
    ensures prompt == Terminated(Front(data))
  {
    prompt := TitleLine(data) + "\n\n";
    prompt := prompt + IntroHead(data);
    if data.relatedKeywords != "" {
      prompt := prompt + RelatedClause(data);
    } else {
      NothingAppended(prompt, RelatedClause(data));
    }
    prompt := prompt + ".\n\n";
    FrontWritten(TitleLine(data), IntroHead(data), RelatedClause(data));
  }

  method AppendAudienceAndIntent(p0: string, ghost before: seq<string>, data: FormRecord) returns (prompt: string)
    requires p0 == Terminated(before)
    ensures prompt == Terminated(before + SectionLines(AudienceSection(data)))
  {
    TerminatedSnoc(before, Wording(AudienceHeader));
    prompt := p0 + Wording(AudienceHeader) + "\n";
    FirstLine(before, Wording(AudienceHeader), AudienceLine(data));
    prompt := prompt + AudienceLine(data) + "\n";
    LineAdded(before, Wording(AudienceHeader), [AudienceLine(data)], SearchIntentLine(data));
    prompt := prompt + SearchIntentLine(data) + "\n";
    LastLineClosed(before, Wording(AudienceHeader), [AudienceLine(data)] + [SearchIntentLine(data)], FunnelStageLine(data));
    prompt := prompt + FunnelStageLine(data) + "\n\n";
  }

  method AppendBusinessObjectives(p0: string, ghost before: seq<string>, data: FormRecord) returns (prompt: string)
    requires p0 == Terminated(before)
    ensures prompt == Terminated(before + SectionLines(ObjectivesSection(data)))
  {
    var h := Wording(ObjectivesHeader);
    TerminatedSnoc(before, h);
    prompt := p0 + h + "\n";
    FirstLineMaybe(before, h, data.postGoals != "", PostGoalsLine(data));
    if data.postGoals != "" {
      prompt := prompt + PostGoalsLine(data) + "\n";
    }
    ghost var bs := When(data.postGoals != "", PostGoalsLine(data));
    LineAdded(before, h, bs, PrimaryGoalLine(data));
    prompt := prompt + PrimaryGoalLine(data) + "\n";
    bs := bs + [PrimaryGoalLine(data)];
    LineMaybeAdded(before, h, bs, data.callToAction != "", CallToActionLine(data));
    if data.callToAction != "" {
      prompt := prompt + CallToActionLine(data) + "\n";
    }
    bs := bs + When(data.callToAction != "", CallToActionLine(data));
    SectionClosed(before, h, bs);
    prompt := prompt + "\n";
  }

  method AppendSeoRequirements(p0: string, ghost before: seq<string>, data: FormRecord) returns (prompt: string)
    requires p0 == Terminated(before)
    ensures prompt == Terminated(before + SectionLines(SeoSection(data)))
  {
    var h := Wording(SeoHeader);
    TerminatedSnoc(before, h);
    prompt := p0 + h + "\n";
    if data.blogTitle != "" {
      FirstLine(before, h, UseTitleLine(data));
      prompt := prompt + UseTitleLine(data) + "\n";
      LineAdded(before, h, [UseTitleLine(data)], Wording(TitleSeoNote));
      prompt := prompt + Wording(TitleSeoNote) + "\n";
    } else {
      FirstLine(before, h, Wording(CreateTitleOptions));
      prompt := prompt + Wording(CreateTitleOptions) + "\n";
      LineAdded(before, h, [Wording(CreateTitleOptions)], Wording(ChooseBestTitle));
      prompt := prompt + Wording(ChooseBestTitle) + "\n";
    }
    ghost var bs := TitleBullets(data);
    LineAdded(before, h, bs, Wording(MetaDescription));
    prompt := prompt + Wording(MetaDescription) + "\n";
    bs := bs + [Wording(MetaDescription)];
    LineAdded(before, h, bs, Wording(KeywordPlacement));
    prompt := prompt + Wording(KeywordPlacement) + "\n";
    bs := bs + [Wording(KeywordPlacement)];
    LineAdded(before, h, bs, Wording(KeywordDensity));
    prompt := prompt + Wording(KeywordDensity) + "\n";
    bs := bs + [Wording(KeywordDensity)];
    LineAdded(before, h, bs, Wording(SemanticKeywords));
    prompt := prompt + Wording(SemanticKeywords) + "\n";
    bs := bs + [Wording(SemanticKeywords)];
    LineMaybeAdded(before, h, bs, data.schemaMarkup, Wording(SchemaBullet));
    if data.schemaMarkup {
      prompt := prompt + Wording(SchemaBullet) + "\n";
    }
    bs := bs + When(data.schemaMarkup, Wording(SchemaBullet));
    LineMaybeAdded(before, h, bs, data.featuredSnippet, Wording(SnippetBullet));
    if data.featuredSnippet {
      prompt := prompt + Wording(SnippetBullet) + "\n";
    }
    bs := bs + When(data.featuredSnippet, Wording(SnippetBullet));
    SectionClosed(before, h, bs);
    prompt := prompt + "\n";
  }

  method AppendContentStructure(p0: string, ghost before: seq<string>, data: FormRecord) returns (prompt: string)
    requires p0 == Terminated(before)
    ensures prompt == Terminated(before + SectionLines(StructureSection(data)))
  {
    var h := Wording(StructureHeader);
    TerminatedSnoc(before, h);
    prompt := p0 + h + "\n";
    FirstLine(before, h, Wording(HookIntro));
    prompt := prompt + Wording(HookIntro) + "\n";
    ghost var bs := [Wording(HookIntro)];
    LineAdded(before, h, bs, Wording(H1Bullet));
    prompt := prompt + Wording(H1Bullet) + "\n";
    bs := bs + [Wording(H1Bullet)];
    LineAdded(before, h, bs, Wording(SubheadingBullet));
    prompt := prompt + Wording(SubheadingBullet) + "\n";
    bs := bs + [Wording(SubheadingBullet)];
    LineMaybeAdded(before, h, bs, data.peopleAlsoAsk, Wording(PeopleAlsoAskBullet));
    if data.peopleAlsoAsk {
      prompt := prompt + Wording(PeopleAlsoAskBullet) + "\n";
    }
    bs := bs + When(data.peopleAlsoAsk, Wording(PeopleAlsoAskBullet));
    LineMaybeAdded(before, h, bs, data.internalLinks, Wording(InternalLinksBullet));
    if data.internalLinks {
      prompt := prompt + Wording(InternalLinksBullet) + "\n";
    }
    bs := bs + When(data.internalLinks, Wording(InternalLinksBullet));
    LineMaybeAdded(before, h, bs, data.externalLinks, Wording(ExternalLinksBullet));
    if data.externalLinks {
      prompt := prompt + Wording(ExternalLinksBullet) + "\n";
    }
    bs := bs + When(data.externalLinks, Wording(ExternalLinksBullet));
    LineAdded(before, h, bs, Wording(CredibilityBullet));
    prompt := prompt + Wording(CredibilityBullet) + "\n";
    bs := bs + [Wording(CredibilityBullet)];
    LineMaybeAdded(before, h, bs, data.faqSection, Wording(FaqBullet));
    if data.faqSection {
      prompt := prompt + Wording(FaqBullet) + "\n";
    }
    bs := bs + When(data.faqSection, Wording(FaqBullet));
    SectionClosed(before, h, bs);
    prompt := prompt + "\n";
  }

  method AppendEngagementElements(p0: string, ghost before: seq<string>) returns (prompt: string)
    requires p0 == Terminated(before)
    ensures prompt == Terminated(before + SectionLines(EngagementSection()))
  {
    var h := Wording(EngagementHeader);
    TerminatedSnoc(before, h);
    prompt := p0 + h + "\n";
    FirstLine(before, h, Wording(Scannability));
    prompt := prompt + Wording(Scannability) + "\n";
    ghost var bs := [Wording(Scannability)];
    LineAdded(before, h, bs, Wording(ShortParagraphs));
    prompt := prompt + Wording(ShortParagraphs) + "\n";
    bs := bs + [Wording(ShortParagraphs)];
    LineAdded(before, h, bs, Wording(ActionableTakeaways));
    prompt := prompt + Wording(ActionableTakeaways) + "\n";
    bs := bs + [Wording(ActionableTakeaways)];
    LineAdded(before, h, bs, Wording(RelevantExamples));
    prompt := prompt + Wording(RelevantExamples) + "\n";
    bs := bs + [Wording(RelevantExamples)];
    LastLineClosed(before, h, bs, Wording(MobileFormatting));
    prompt := prompt + Wording(MobileFormatting) + "\n\n";
  }

  /** The technical specifications end without their blank line: the block
      written next starts with it. */
  method AppendTechnicalSpecs(p0: string, ghost before: seq<string>, data: FormRecord) returns (prompt: string)
    requires p0 == Terminated(before)
    ensures prompt + "\n" == Terminated(before + SectionLines(TechnicalSection(data)))
  {
    var h := Wording(TechnicalHeader);
    TerminatedSnoc(before, h);
    prompt := p0 + h + "\n";
    FirstLine(before, h, WordCountLine(data));
    prompt := prompt + WordCountLine(data) + "\n";
    ghost var bs := [WordCountLine(data)];
    LineAdded(before, h, bs, ToneLine(data));
    prompt := prompt + ToneLine(data) + "\n";
    bs := bs + [ToneLine(data)];
    LineAdded(before, h, bs, Wording(ConclusionBullet));
    prompt := prompt + Wording(ConclusionBullet) + "\n";
    bs := bs + [Wording(ConclusionBullet)];
    LineAdded(before, h, bs, Wording(ValuePropositionBullet));
    prompt := prompt + Wording(ValuePropositionBullet) + "\n";
    bs := bs + [Wording(ValuePropositionBullet)];
    SectionClosed(before, h, bs);
  }

  /** The custom instructions, when there are any. */
  method AppendAdditionalRequirements(p0: string, ghost before: seq<string>, data: FormRecord) returns (prompt: string)
    requires p0 + "\n" == Terminated(before)
    ensures prompt + "\n" == Terminated(before + AdditionalLines(data))
  {
    prompt := p0;
    if data.customInstructions != "" {
      AdditionalWritten(before, p0, Wording(AdditionalHeader), data.customInstructions);
      prompt := prompt + "\n" + Wording(AdditionalHeader) + "\n" + data.customInstructions + "\n";
    } else {
      assert before + AdditionalLines(data) == before;
    }
  }

  method AppendContentGoals(p0: string, ghost before: seq<string>) returns (prompt: string)
    requires p0 + "\n" == Terminated(before)
    ensures prompt == Terminated(before + SectionLines(GoalsSection()))
  {
    var h := Wording(GoalsHeader);
    TerminatedSnoc(before, h);
    prompt := p0 + "\n" + h + "\n";
    FirstLine(before, h, Wording(TopicalAuthority));
    prompt := prompt + Wording(TopicalAuthority) + "\n";
    ghost var bs := [Wording(TopicalAuthority)];
    LineAdded(before, h, bs, Wording(ComprehensiveCoverage));
    prompt := prompt + Wording(ComprehensiveCoverage) + "\n";
    bs := bs + [Wording(ComprehensiveCoverage)];
    LineAdded(before, h, bs, Wording(OrganicTraffic));
    prompt := prompt + Wording(OrganicTraffic) + "\n";
    bs := bs + [Wording(OrganicTraffic)];
    LastLineClosed(before, h, bs, Wording(ConversionSupport));
    prompt := prompt + Wording(ConversionSupport) + "\n\n";
  }

  /** buildPromptString: the brief is written block by block, in the order
      of the sections; `lines` holds the lines written so far. */
  method BuildPromptString(data: FormRecord) returns (prompt: string)
    ensures prompt == Text(data)
  {
    ghost var lines := Front(data);
    prompt := WriteOpening(data);
    prompt := AppendAudienceAndIntent(prompt, lines, data);
    lines := lines + SectionLines(AudienceSection(data));
    prompt := AppendBusinessObjectives(prompt, lines, data);
    lines := lines + SectionLines(ObjectivesSection(data));
    prompt := AppendSeoRequirements(prompt, lines, data);
    lines := lines + SectionLines(SeoSection(data));
    prompt := AppendContentStructure(prompt, lines, data);
    lines := lines + SectionLines(StructureSection(data));
    prompt := AppendEngagementElements(prompt, lines);
    lines := lines + SectionLines(EngagementSection());
    prompt := AppendTechnicalSpecs(prompt, lines, data);
    lines := lines + SectionLines(TechnicalSection(data));
    prompt := AppendAdditionalRequirements(prompt, lines, data);
    lines := lines + AdditionalLines(data);
    prompt := AppendContentGoals(prompt, lines);
    lines := lines + SectionLines(GoalsSection());
    prompt := prompt + Wording(ClosingSentence);
  }
}
