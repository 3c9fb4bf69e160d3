/** The layout of the brief: how it opens and closes, its sections and their
    order, which lines are always there and how many lines it has. */
module BriefShape {
  import opened Strings
  import opened Form
  import opened Brief

  // The brief as a list of sections.

  /** The lines of a list of sections, one after the other. */
  function Flatten(sections: seq<Section>): seq<string>
  {
    if sections == [] then [] else Flatten(sections[..|sections| - 1]) + SectionLines(sections[|sections| - 1])
  }

  lemma FlattenSnoc(sections: seq<Section>, s: Section)
    ensures Flatten(sections + [s]) == Flatten(sections) + SectionLines(s)
  {
    assert (sections + [s])[..|sections|] == sections;
  }

  lemma FlattenMaybeSnoc(sections: seq<Section>, c: bool, s: Section)
    ensures Flatten(sections + When(c, s)) == Flatten(sections) + if c then SectionLines(s) else []
  {
    if c {
      FlattenSnoc(sections, s);
    } else {
      assert sections + When(c, s) == sections;
    }
  }

  /** The sections of the brief, in the order they are written; the
      additional-requirements section only when there are custom
      instructions. */
  function SectionsOf(data: FormRecord): seq<Section>
  {
    [AudienceSection(data)]
    + [ObjectivesSection(data)]
    + [SeoSection(data)]
    + [StructureSection(data)]
    + [EngagementSection()]
    + [TechnicalSection(data)]
    + When(data.customInstructions != "", AdditionalSection(data))
    + [GoalsSection()]
  }

  lemma Regrouped9(f: seq<string>, a: seq<string>, b: seq<string>, c: seq<string>, d: seq<string>,
                   e: seq<string>, g: seq<string>, h: seq<string>, i: seq<string>)
    ensures f + a + b + c + d + e + g + h + i == f + (a + b + c + d + e + g + h + i)
  {
  }

  /** Three more sections in a row. */
  lemma ThreeFlattened(p: seq<Section>, a: Section, b: Section, c: Section)
    ensures Flatten(p + [a] + [b] + [c]) == Flatten(p) + SectionLines(a) + SectionLines(b) + SectionLines(c)
  {
    FlattenSnoc(p, a);
    FlattenSnoc(p + [a], b);
    FlattenSnoc(p + [a] + [b], c);
  }

  /** Six sections in a row. */
  lemma SixFlattened(a: Section, b: Section, c: Section, d: Section, e: Section, g: Section)
    ensures Flatten([a] + [b] + [c] + [d] + [e] + [g])
      == SectionLines(a) + SectionLines(b) + SectionLines(c) + SectionLines(d) + SectionLines(e) + SectionLines(g)
  {
    ThreeFlattened([], a, b, c);
    assert [] + [a] == [a];
    ThreeFlattened([a] + [b] + [c], d, e, g);
  }

  /** The brief is its front followed by its sections, each a header, its
      bullets and one blank line. */
  lemma LinesAreSections(data: FormRecord)
    ensures Lines(data) == Front(data) + Flatten(SectionsOf(data))
  {
    var fixed := [AudienceSection(data)] + [ObjectivesSection(data)] + [SeoSection(data)]
      + [StructureSection(data)] + [EngagementSection()] + [TechnicalSection(data)];
    SixFlattened(AudienceSection(data), ObjectivesSection(data), SeoSection(data),
      StructureSection(data), EngagementSection(), TechnicalSection(data));
    FlattenMaybeSnoc(fixed, data.customInstructions != "", AdditionalSection(data));
    FlattenSnoc(fixed + When(data.customInstructions != "", AdditionalSection(data)), GoalsSection());
    Regrouped9(Front(data), SectionLines(AudienceSection(data)), SectionLines(ObjectivesSection(data)),
      SectionLines(SeoSection(data)), SectionLines(StructureSection(data)), SectionLines(EngagementSection()),
      SectionLines(TechnicalSection(data)), AdditionalLines(data), SectionLines(GoalsSection()));
  }

  /** The headers of a list of sections, in order. */
  function Headers(sections: seq<Section>): (r: seq<string>)
    ensures |r| == |sections|
    ensures forall i :: 0 <= i < |sections| ==> r[i] == sections[i].header
  {
    seq(|sections|, i requires 0 <= i < |sections| => sections[i].header)
  }

  lemma HeadersAppend(a: seq<Section>, b: seq<Section>)
    ensures Headers(a + b) == Headers(a) + Headers(b)
  {
  }

  /** Headers of the fixed sections, then of an optional one, then of the
      last one. */
  lemma HeadersOfChain(a: Section, b: Section, c: Section, d: Section, e: Section, g: Section,
                       opt: bool, h: Section, last: Section)
    ensures Headers([a] + [b] + [c] + [d] + [e] + [g] + When(opt, h) + [last])
      == [a.header, b.header, c.header, d.header, e.header, g.header] + When(opt, h.header) + [last.header]
  {
    var fixed := [a] + [b] + [c] + [d] + [e] + [g];
    assert fixed == [a, b, c, d, e, g];
    HeadersAppend(fixed + When(opt, h), [last]);
    HeadersAppend(fixed, When(opt, h));
  }

  /** The sections come in a fixed order, and the additional-requirements
      section is there exactly when there are custom instructions. */
  lemma HeadersInOrder(data: FormRecord)
    ensures Headers(SectionsOf(data))
      == [Wording(AudienceHeader), Wording(ObjectivesHeader), Wording(SeoHeader), Wording(StructureHeader),
          Wording(EngagementHeader), Wording(TechnicalHeader)]
         + When(data.customInstructions != "", Wording(AdditionalHeader)) + [Wording(GoalsHeader)]
  {
    HeadersOfChain(AudienceSection(data), ObjectivesSection(data), SeoSection(data), StructureSection(data),
      EngagementSection(), TechnicalSection(data), data.customInstructions != "", AdditionalSection(data), GoalsSection());
  }

  // How the brief opens and closes.

  lemma OpeningPrefix(title: string, head: string, clause: string, rest: string, closing: string,
                      marker: string, upper: string, opening: string, keyword: string)
    requires title == marker + upper && head == opening + keyword + "\""
    ensures marker + upper + "\n\n" + opening + keyword + "\"" <= title + "\n\n" + head + clause + ".\n\n" + rest + closing
  {
    var x := marker + upper + "\n\n" + opening + keyword + "\"";
    assert title + "\n\n" + head + clause + ".\n\n" + rest + closing == x + (clause + ".\n\n" + rest + closing);
  }

  /** The brief opens with its marker and the main keyword in capitals, a
      blank line, and the instruction that quotes the keyword as typed. */
  lemma OpensWithBrief(data: FormRecord)
    ensures Wording(BriefMarker) + Upper(data.mainKeyword) + "\n\n" + Wording(IntroOpening) + data.mainKeyword + "\"" <= Text(data)
  {
    LinesAreSections(data);
    TerminatedAppend(Front(data), Flatten(SectionsOf(data)));
    FrontWritten(TitleLine(data), IntroHead(data), RelatedClause(data));
    OpeningPrefix(TitleLine(data), IntroHead(data), RelatedClause(data), Terminated(Flatten(SectionsOf(data))),
      Wording(ClosingSentence), Wording(BriefMarker), Upper(data.mainKeyword), Wording(IntroOpening), data.mainKeyword);
  }

  /** The brief ends with the closing sentence. */
  lemma EndsWithClosing(data: FormRecord)
    ensures var text, closing := Text(data), Wording(ClosingSentence);
      |closing| <= |text| && text[|text| - |closing|..] == closing
  {
  }

  // Lines that are always there.

  lemma PrefixOfLines(x: seq<string>, a: seq<string>, b: seq<string>, c: seq<string>, d: seq<string>,
                      e: seq<string>, g: seq<string>, h: seq<string>)
    ensures x <= x + a + b + c + d + e + g + h
  {
    assert x + a + b + c + d + e + g + h == x + (a + b + c + d + e + g + h);
  }

  lemma ThreeBulletSection(h: string, a: string, b: string, c: string)
    ensures SectionLines(Section(h, [a] + [b] + [c])) == [h, a, b, c, ""]
  {
  }

  /** The audience section always comes right after the opening, and names
      the audience the user typed or, failing that, a general audience
      interested in the main keyword. */
  lemma AudienceAlwaysPresent(data: FormRecord)
    ensures var audience := if data.targetAudience != "" then data.targetAudience
                            else Wording(DefaultAudience) + data.mainKeyword;
      Front(data) + [Wording(AudienceHeader), Wording(TargetAudienceLabel) + audience,
                     SearchIntentLine(data), FunnelStageLine(data), ""] <= Lines(data)
  {
    ThreeBulletSection(Wording(AudienceHeader), AudienceLine(data), SearchIntentLine(data), FunnelStageLine(data));
    PrefixOfLines(Front(data) + SectionLines(AudienceSection(data)), SectionLines(ObjectivesSection(data)),
      SectionLines(SeoSection(data)), SectionLines(StructureSection(data)), SectionLines(EngagementSection()),
      SectionLines(TechnicalSection(data)), AdditionalLines(data), SectionLines(GoalsSection()));
  }

  /** The answers chosen from drop-downs are always written, each on its
      own labelled line, whatever else the form holds. */
  lemma ChoicesAlwaysPresent(data: FormRecord)
    ensures SearchIntentLine(data) in Lines(data) && FunnelStageLine(data) in Lines(data)
    ensures PrimaryGoalLine(data) in Lines(data)
    ensures WordCountLine(data) in Lines(data) && ToneLine(data) in Lines(data)
  {
    var audience, objectives, technical := SectionLines(AudienceSection(data)), SectionLines(ObjectivesSection(data)),
      SectionLines(TechnicalSection(data));
    assert SearchIntentLine(data) in audience && FunnelStageLine(data) in audience;
    assert PrimaryGoalLine(data) in objectives;
    assert WordCountLine(data) in technical && ToneLine(data) in technical;
  }

  lemma BulletsRegrouped(x: seq<string>, a: seq<string>, b: seq<string>, c: seq<string>, d: seq<string>,
                         e: seq<string>, g: seq<string>)
    ensures x + a + b + c + d + e + g == x + (a + b + c + d + e + g)
  {
  }

  /** The SEO section always opens with exactly one of the two title
      branches: the title the user gave, or the instruction to invent title
      options. */
  lemma SeoOpensWithTitle(data: FormRecord)
    ensures var title := if data.blogTitle != "" then [UseTitleLine(data), Wording(TitleSeoNote)]
                         else [Wording(CreateTitleOptions), Wording(ChooseBestTitle)];
      Front(data) + SectionLines(AudienceSection(data)) + SectionLines(ObjectivesSection(data))
        + [Wording(SeoHeader)] + title <= Lines(data)
  {
    var before := Front(data) + SectionLines(AudienceSection(data)) + SectionLines(ObjectivesSection(data));
    var schema, snippet := When(data.schemaMarkup, Wording(SchemaBullet)), When(data.featuredSnippet, Wording(SnippetBullet));
    BulletsRegrouped(TitleBullets(data), [Wording(MetaDescription)], [Wording(KeywordPlacement)], [Wording(KeywordDensity)],
      [Wording(SemanticKeywords)], schema, snippet);
    var rest := [Wording(MetaDescription)] + [Wording(KeywordPlacement)] + [Wording(KeywordDensity)] + [Wording(SemanticKeywords)]
      + schema + snippet;
    SectionOpening(before, Wording(SeoHeader), TitleBullets(data), rest, SectionLines(StructureSection(data)),
      SectionLines(EngagementSection()), SectionLines(TechnicalSection(data)), AdditionalLines(data), SectionLines(GoalsSection()));
    if data.blogTitle != "" {
      PairPrefix(before, Wording(SeoHeader), UseTitleLine(data), Wording(TitleSeoNote), Lines(data));
    } else {
      PairPrefix(before, Wording(SeoHeader), Wording(CreateTitleOptions), Wording(ChooseBestTitle), Lines(data));
    }
  }

  lemma PairPrefix(before: seq<string>, h: string, a: string, b: string, lines: seq<string>)
    requires before + [h] + ([a] + [b]) <= lines
    ensures before + [h] + [a, b] <= lines
  {
    assert [a] + [b] == [a, b];
  }

  lemma SectionOpening(before: seq<string>, h: string, first: seq<string>, rest: seq<string>,
                       a: seq<string>, b: seq<string>, c: seq<string>, d: seq<string>, e: seq<string>)
    ensures before + [h] + first <= before + SectionLines(Section(h, first + rest)) + a + b + c + d + e
  {
    assert before + SectionLines(Section(h, first + rest)) + a + b + c + d + e
      == before + [h] + first + (rest + [""] + a + b + c + d + e);
  }

  // How many lines the brief has.

  function Count(b: bool): nat
  {
    if b then 1 else 0
  }

  lemma WhenLength<T>(c: bool, x: T)
    ensures |When(c, x)| == Count(c)
  {
  }

  lemma ChainLength(f: seq<string>, a: seq<string>, b: seq<string>, c: seq<string>, d: seq<string>,
                    e: seq<string>, g: seq<string>, h: seq<string>, i: seq<string>)
    ensures |f + a + b + c + d + e + g + h + i| == |f| + |a| + |b| + |c| + |d| + |e| + |g| + |h| + |i|
  {
  }

  lemma ObjectivesLength(data: FormRecord)
    ensures |SectionLines(ObjectivesSection(data))| == 3 + Count(data.postGoals != "") + Count(data.callToAction != "")
  {
    WhenLength(data.postGoals != "", PostGoalsLine(data));
    WhenLength(data.callToAction != "", CallToActionLine(data));
  }

  lemma SeoLength(data: FormRecord)
    ensures |SectionLines(SeoSection(data))| == 8 + Count(data.schemaMarkup) + Count(data.featuredSnippet)
  {
    WhenLength(data.schemaMarkup, Wording(SchemaBullet));
    WhenLength(data.featuredSnippet, Wording(SnippetBullet));
  }

  lemma StructureLength(data: FormRecord)
    ensures |SectionLines(StructureSection(data))|
      == 6 + Count(data.peopleAlsoAsk) + Count(data.internalLinks) + Count(data.externalLinks) + Count(data.faqSection)
  {
    WhenLength(data.peopleAlsoAsk, Wording(PeopleAlsoAskBullet));
    WhenLength(data.internalLinks, Wording(InternalLinksBullet));
    WhenLength(data.externalLinks, Wording(ExternalLinksBullet));
    WhenLength(data.faqSection, Wording(FaqBullet));
  }

  lemma FixedLengths(data: FormRecord)
    ensures |Front(data)| == 4 && |SectionLines(AudienceSection(data))| == 5
    ensures |SectionLines(EngagementSection())| == 7 && |SectionLines(TechnicalSection(data))| == 6
    ensures |AdditionalLines(data)| == 3 * Count(data.customInstructions != "")
    ensures |SectionLines(GoalsSection())| == 6
  {
  }

  /** The number of lines before the closing sentence: 45 that are always
      there, one per optional objective and per ticked checkbox, and three
      for the custom instructions. */
  lemma LineCount(data: FormRecord)
    ensures |Lines(data)| == 45
      + Count(data.postGoals != "") + Count(data.callToAction != "")
      + Count(data.schemaMarkup) + Count(data.featuredSnippet)
      + Count(data.peopleAlsoAsk) + Count(data.internalLinks) + Count(data.externalLinks) + Count(data.faqSection)
      + 3 * Count(data.customInstructions != "")
  {
    ObjectivesLength(data);
    SeoLength(data);
    StructureLength(data);
    FixedLengths(data);
    ChainLength(Front(data), SectionLines(AudienceSection(data)), SectionLines(ObjectivesSection(data)),
      SectionLines(SeoSection(data)), SectionLines(StructureSection(data)), SectionLines(EngagementSection()),
      SectionLines(TechnicalSection(data)), AdditionalLines(data), SectionLines(GoalsSection()));
  }

  // Which answers each part of the brief reads.

  lemma TitleKept(a: FormRecord, b: FormRecord)
    requires a.mainKeyword == b.mainKeyword
    ensures TitleLine(a) == TitleLine(b) && IntroHead(a) == IntroHead(b)
  {
  }

  lemma FrontKept(a: FormRecord, b: FormRecord)
    requires a.mainKeyword == b.mainKeyword && a.relatedKeywords == b.relatedKeywords
    ensures Front(a) == Front(b)
  {
  }

  lemma AudienceKept(a: FormRecord, b: FormRecord)
    requires a.mainKeyword == b.mainKeyword && a.targetAudience == b.targetAudience
    requires a.searchIntent == b.searchIntent && a.funnelStage == b.funnelStage
    ensures AudienceSection(a) == AudienceSection(b)
  {
  }

  lemma ObjectivesKept(a: FormRecord, b: FormRecord)
    requires a.postGoals == b.postGoals && a.businessGoal == b.businessGoal && a.callToAction == b.callToAction
    ensures ObjectivesSection(a) == ObjectivesSection(b)
  {
  }

  lemma SeoKept(a: FormRecord, b: FormRecord)
    requires a.blogTitle == b.blogTitle && a.schemaMarkup == b.schemaMarkup && a.featuredSnippet == b.featuredSnippet
    ensures SeoSection(a) == SeoSection(b)
  {
  }

  lemma StructureKept(a: FormRecord, b: FormRecord)
    requires a.peopleAlsoAsk == b.peopleAlsoAsk && a.internalLinks == b.internalLinks
    requires a.externalLinks == b.externalLinks && a.faqSection == b.faqSection
    ensures StructureSection(a) == StructureSection(b)
  {
  }

  lemma TechnicalKept(a: FormRecord, b: FormRecord)
    requires a.wordCount == b.wordCount && a.toneStyle == b.toneStyle
    ensures TechnicalSection(a) == TechnicalSection(b)
  {
  }

  lemma InstructionsKept(a: FormRecord, b: FormRecord)
    requires a.customInstructions == b.customInstructions
    ensures AdditionalLines(a) == AdditionalLines(b)
  {
  }

  // Optional answers add their own line and change nothing else.

  /** The sections from the SEO section on. */
  function SeoOnwards(data: FormRecord): seq<string>
  {
    SectionLines(SeoSection(data)) + SectionLines(StructureSection(data)) + SectionLines(EngagementSection())
    + SectionLines(TechnicalSection(data)) + AdditionalLines(data) + SectionLines(GoalsSection())
  }

  lemma TailRegrouped(x: seq<string>, a: seq<string>, b: seq<string>, c: seq<string>, d: seq<string>,
                      e: seq<string>, g: seq<string>, h: seq<string>)
    ensures x + a + b + c + d + e + g + h == x + a + (b + c + d + e + g + h)
  {
  }

  lemma SeoOnwardsSplit(data: FormRecord)
    ensures Lines(data) == Front(data) + SectionLines(AudienceSection(data)) + SectionLines(ObjectivesSection(data))
      + SeoOnwards(data)
  {
    TailRegrouped(Front(data) + SectionLines(AudienceSection(data)), SectionLines(ObjectivesSection(data)),
      SectionLines(SeoSection(data)), SectionLines(StructureSection(data)), SectionLines(EngagementSection()),
      SectionLines(TechnicalSection(data)), AdditionalLines(data), SectionLines(GoalsSection()));
  }

  /** Everything outside the objectives section ignores the objectives the
      user typed. */
  lemma ObjectivesContext(a: FormRecord, b: FormRecord)
    requires a.(postGoals := "", callToAction := "") == b.(postGoals := "", callToAction := "")
    ensures Front(a) == Front(b) && AudienceSection(a) == AudienceSection(b) && SeoOnwards(a) == SeoOnwards(b)
    ensures PrimaryGoalLine(a) == PrimaryGoalLine(b)
  {
    var a0, b0 := a.(postGoals := "", callToAction := ""), b.(postGoals := "", callToAction := "");
    assert a0.mainKeyword == b0.mainKeyword && a0.targetAudience == b0.targetAudience;
    assert a0.searchIntent == b0.searchIntent && a0.funnelStage == b0.funnelStage;
    assert a0.businessGoal == b0.businessGoal;
    assert a0.blogTitle == b0.blogTitle && a0.schemaMarkup == b0.schemaMarkup && a0.featuredSnippet == b0.featuredSnippet;
    assert a0.peopleAlsoAsk == b0.peopleAlsoAsk && a0.internalLinks == b0.internalLinks;
    assert a0.externalLinks == b0.externalLinks && a0.faqSection == b0.faqSection;
    assert a0.wordCount == b0.wordCount && a0.toneStyle == b0.toneStyle && a0.customInstructions == b0.customInstructions;
    assert a0.relatedKeywords == b0.relatedKeywords;
    FrontKept(a, b);
    AudienceKept(a, b);
    SeoKept(a, b);
    StructureKept(a, b);
    TechnicalKept(a, b);
    InstructionsKept(a, b);
  }

  /** An optional first bullet is one more line right after the header. */
  lemma FirstBulletSpliced(p: seq<string>, h: string, y: string, primary: string, w: seq<string>, q: seq<string>)
    ensures p + SectionLines(Section(h, When(false, y) + [primary] + w)) + q == p + [h] + ([primary] + w + [""] + q)
    ensures p + SectionLines(Section(h, When(true, y) + [primary] + w)) + q == p + [h] + [y] + ([primary] + w + [""] + q)
  {
    assert When(false, y) + [primary] + w == [primary] + w;
  }

  /** An optional last bullet is one more line right before the blank line. */
  lemma LastBulletSpliced(p: seq<string>, h: string, w: seq<string>, primary: string, y: string, q: seq<string>)
    ensures p + SectionLines(Section(h, w + [primary] + When(false, y))) + q == p + [h] + w + [primary] + ([""] + q)
    ensures p + SectionLines(Section(h, w + [primary] + When(true, y))) + q == p + [h] + w + [primary] + [y] + ([""] + q)
  {
    assert w + [primary] + When(false, y) == w + [primary];
  }

  /** The lines up to where the post goals go. */
  function PostGoalsUpTo(data: FormRecord): seq<string>
  {
    Front(data) + SectionLines(AudienceSection(data)) + [Wording(ObjectivesHeader)]
  }

  /** The lines from where the post goals go on. */
  function PostGoalsFrom(data: FormRecord): seq<string>
  {
    [PrimaryGoalLine(data)] + When(data.callToAction != "", CallToActionLine(data)) + [""] + SeoOnwards(data)
  }

  /** Typing post goals adds exactly one line, the goals after their label,
      as the first business objective, and changes no other line. */
  lemma PostGoalsInsertsOneLine(data: FormRecord)
    requires data.postGoals != ""
    ensures var off := data.(postGoals := "");
      Lines(off) == PostGoalsUpTo(off) + PostGoalsFrom(off)
      && Lines(data) == PostGoalsUpTo(off) + [Wording(PostGoalsLabel) + data.postGoals] + PostGoalsFrom(off)
  {
    var off := data.(postGoals := "");
    SeoOnwardsSplit(off);
    SeoOnwardsSplit(data);
    ObjectivesContext(data, off);
    var w := When(data.callToAction != "", CallToActionLine(data));
    FirstBulletSpliced(Front(off) + SectionLines(AudienceSection(off)), Wording(ObjectivesHeader), PostGoalsLine(data),
      PrimaryGoalLine(off), w, SeoOnwards(off));
  }

  /** The lines up to where the call to action goes. */
  function CallToActionUpTo(data: FormRecord): seq<string>
  {
    Front(data) + SectionLines(AudienceSection(data)) + [Wording(ObjectivesHeader)]
    + When(data.postGoals != "", PostGoalsLine(data)) + [PrimaryGoalLine(data)]
  }

  /** Typing a call to action adds exactly one line, the call after its
      label, as the last business objective, and changes no other line. */
  lemma CallToActionInsertsOneLine(data: FormRecord)
    requires data.callToAction != ""
    ensures var off := data.(callToAction := "");
      Lines(off) == CallToActionUpTo(off) + ([""] + SeoOnwards(off))
      && Lines(data) == CallToActionUpTo(off) + [Wording(CallToActionLabel) + data.callToAction] + ([""] + SeoOnwards(off))
  {
    var off := data.(callToAction := "");
    SeoOnwardsSplit(off);
    SeoOnwardsSplit(data);
    ObjectivesContext(data, off);
    var w := When(data.postGoals != "", PostGoalsLine(data));
    LastBulletSpliced(Front(off) + SectionLines(AudienceSection(off)), Wording(ObjectivesHeader), w,
      PrimaryGoalLine(off), CallToActionLine(data), SeoOnwards(off));
  }

  /** The lines up to where the custom instructions go: every section up to
      the technical specifications. */
  function InstructionsUpTo(data: FormRecord): seq<string>
  {
    Front(data) + SectionLines(AudienceSection(data)) + SectionLines(ObjectivesSection(data))
    + SectionLines(SeoSection(data)) + SectionLines(StructureSection(data)) + SectionLines(EngagementSection())
    + SectionLines(TechnicalSection(data))
  }

  lemma InstructionsContext(a: FormRecord, b: FormRecord)
    requires a.(customInstructions := "") == b.(customInstructions := "")
    ensures InstructionsUpTo(a) == InstructionsUpTo(b)
  {
    var a0, b0 := a.(customInstructions := ""), b.(customInstructions := "");
    assert a0.mainKeyword == b0.mainKeyword && a0.targetAudience == b0.targetAudience;
    assert a0.searchIntent == b0.searchIntent && a0.funnelStage == b0.funnelStage;
    assert a0.postGoals == b0.postGoals && a0.businessGoal == b0.businessGoal && a0.callToAction == b0.callToAction;
    assert a0.blogTitle == b0.blogTitle && a0.schemaMarkup == b0.schemaMarkup && a0.featuredSnippet == b0.featuredSnippet;
    assert a0.peopleAlsoAsk == b0.peopleAlsoAsk && a0.internalLinks == b0.internalLinks;
    assert a0.externalLinks == b0.externalLinks && a0.faqSection == b0.faqSection;
    assert a0.wordCount == b0.wordCount && a0.toneStyle == b0.toneStyle;
    assert a0.relatedKeywords == b0.relatedKeywords;
    FrontKept(a, b);
    AudienceKept(a, b);
    ObjectivesKept(a, b);
    SeoKept(a, b);
    StructureKept(a, b);
    TechnicalKept(a, b);
  }

  lemma BlockSpliced(up: seq<string>, h: string, x: string, goals: seq<string>)
    ensures up + [] + goals == up + goals
    ensures up + SectionLines(Section(h, [x])) + goals == up + [h, x, ""] + goals
  {
  }

  /** Typing custom instructions adds exactly their own block, a header, the
      instructions verbatim and a blank line, before the content goals, and
      changes no other line. */
  lemma InstructionsInsertBlock(data: FormRecord)
    requires data.customInstructions != ""
    ensures var off := data.(customInstructions := "");
      Lines(off) == InstructionsUpTo(off) + SectionLines(GoalsSection())
      && Lines(data) == InstructionsUpTo(off) + [Wording(AdditionalHeader), data.customInstructions, ""]
                        + SectionLines(GoalsSection())
  {
    var off := data.(customInstructions := "");
    InstructionsContext(data, off);
    BlockSpliced(InstructionsUpTo(off), Wording(AdditionalHeader), data.customInstructions, SectionLines(GoalsSection()));
  }

  /** Everything but the introduction ignores the related keywords. */
  lemma KeywordsContext(a: FormRecord, b: FormRecord)
    requires a.(relatedKeywords := "") == b.(relatedKeywords := "")
    ensures TitleLine(a) == TitleLine(b) && IntroHead(a) == IntroHead(b) && SectionsOf(a) == SectionsOf(b)
  {
    var a0, b0 := a.(relatedKeywords := ""), b.(relatedKeywords := "");
    assert a0.mainKeyword == b0.mainKeyword && a0.targetAudience == b0.targetAudience;
    assert a0.searchIntent == b0.searchIntent && a0.funnelStage == b0.funnelStage;
    assert a0.postGoals == b0.postGoals && a0.businessGoal == b0.businessGoal && a0.callToAction == b0.callToAction;
    assert a0.blogTitle == b0.blogTitle && a0.schemaMarkup == b0.schemaMarkup && a0.featuredSnippet == b0.featuredSnippet;
    assert a0.peopleAlsoAsk == b0.peopleAlsoAsk && a0.internalLinks == b0.internalLinks;
    assert a0.externalLinks == b0.externalLinks && a0.faqSection == b0.faqSection;
    assert a0.wordCount == b0.wordCount && a0.toneStyle == b0.toneStyle && a0.customInstructions == b0.customInstructions;
    TitleKept(a, b);
    AudienceKept(a, b);
    ObjectivesKept(a, b);
    SeoKept(a, b);
    StructureKept(a, b);
    TechnicalKept(a, b);
  }

  /** The text after the front. */
  function AfterFront(data: FormRecord): string
  {
    Terminated(Flatten(SectionsOf(data))) + Wording(ClosingSentence)
  }

  lemma TextAfterFront(data: FormRecord)
    ensures Text(data) == TitleLine(data) + "\n\n" + IntroHead(data) + RelatedClause(data) + ".\n\n" + AfterFront(data)
  {
    LinesAreSections(data);
    TerminatedAppend(Front(data), Flatten(SectionsOf(data)));
    FrontWritten(TitleLine(data), IntroHead(data), RelatedClause(data));
    FrontRegrouped(TitleLine(data), IntroHead(data), RelatedClause(data), Terminated(Flatten(SectionsOf(data))),
      Wording(ClosingSentence));
  }

  lemma FrontRegrouped(title: string, head: string, clause: string, rest: string, closing: string)
    ensures title + "\n\n" + head + clause + ".\n\n" + rest + closing
         == title + "\n\n" + head + clause + ".\n\n" + (rest + closing)
  {
  }

  /** Typing related keywords adds exactly the keyword-cluster clause, with
      the keywords, to the introduction, right after the quoted main
      keyword, and changes nothing else in the brief. */
  lemma RelatedKeywordsExtendIntro(data: FormRecord)
    requires data.relatedKeywords != ""
    ensures var off := data.(relatedKeywords := "");
      var opening := TitleLine(off) + "\n\n" + IntroHead(off);
      Text(off) == opening + ".\n\n" + AfterFront(off)
      && Text(data) == opening + Wording(ClusterClause) + data.relatedKeywords + ".\n\n" + AfterFront(off)
  {
    var off := data.(relatedKeywords := "");
    TextAfterFront(off);
    TextAfterFront(data);
    KeywordsContext(data, off);
    NothingAppended(TitleLine(off) + "\n\n" + IntroHead(off), RelatedClause(off));
    ClauseRegrouped(TitleLine(off) + "\n\n" + IntroHead(off), Wording(ClusterClause), data.relatedKeywords, AfterFront(off));
  }

  lemma ClauseRegrouped(opening: string, w: string, k: string, rest: string)
    ensures opening + (w + k) + ".\n\n" + rest == opening + w + k + ".\n\n" + rest
  {
  }
}
