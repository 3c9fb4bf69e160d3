/** What each of the six checkboxes does to the brief: ticking one adds its
    fixed bullet, as one line, at one fixed place, and changes nothing else. */
module BriefProperties {
  import opened Strings
  import opened Form
  import opened Brief
  import opened BriefShape

  // The six checkboxes.

  datatype Flag = SchemaMarkup | FeaturedSnippet | PeopleAlsoAsk | InternalLinks | ExternalLinks | FaqSection

  function IsSet(data: FormRecord, f: Flag): bool
  {
    match f
    case SchemaMarkup => data.schemaMarkup
    case FeaturedSnippet => data.featuredSnippet
    case PeopleAlsoAsk => data.peopleAlsoAsk
    case InternalLinks => data.internalLinks
    case ExternalLinks => data.externalLinks
    case FaqSection => data.faqSection
  }

  /** The form with one checkbox set to `v` and every other field kept. */
  function WithFlag(data: FormRecord, f: Flag, v: bool): (r: FormRecord)
    ensures IsSet(r, f) == v
    ensures forall g :: g != f ==> IsSet(r, g) == IsSet(data, g)
    ensures Answers(r) == Answers(data)
  {
    match f
    case SchemaMarkup => data.(schemaMarkup := v)
    case FeaturedSnippet => data.(featuredSnippet := v)
    case PeopleAlsoAsk => data.(peopleAlsoAsk := v)
    case InternalLinks => data.(internalLinks := v)
    case ExternalLinks => data.(externalLinks := v)
    case FaqSection => data.(faqSection := v)
  }

  /** The form with every checkbox cleared: what the user typed and chose. */
  function Answers(data: FormRecord): FormRecord
  {
    data.(featuredSnippet := false, schemaMarkup := false, peopleAlsoAsk := false,
          internalLinks := false, externalLinks := false, faqSection := false)
  }

  /** The parts of the brief that no checkbox touches. */
  lemma CheckboxFreeParts(a: FormRecord, b: FormRecord)
    requires Answers(a) == Answers(b)
    ensures Front(a) == Front(b)
    ensures AudienceSection(a) == AudienceSection(b)
    ensures ObjectivesSection(a) == ObjectivesSection(b)
    ensures TitleBullets(a) == TitleBullets(b)
    ensures TechnicalSection(a) == TechnicalSection(b)
    ensures AdditionalLines(a) == AdditionalLines(b)
  {
    assert Answers(a).mainKeyword == Answers(b).mainKeyword;
  }

  function FlagBullet(f: Flag): string
  {
    match f
    case SchemaMarkup => Wording(SchemaBullet)
    case FeaturedSnippet => Wording(SnippetBullet)
    case PeopleAlsoAsk => Wording(PeopleAlsoAskBullet)
    case InternalLinks => Wording(InternalLinksBullet)
    case ExternalLinks => Wording(ExternalLinksBullet)
    case FaqSection => Wording(FaqBullet)
  }

  /** The line a checkbox's bullet follows: the last line written before it
      as the earlier checkboxes leave it. */
  function Anchor(data: FormRecord, f: Flag): string
  {
    match f
    case SchemaMarkup => Wording(SemanticKeywords)
    case FeaturedSnippet => if data.schemaMarkup then Wording(SchemaBullet) else Wording(SemanticKeywords)
    case PeopleAlsoAsk => Wording(SubheadingBullet)
    case InternalLinks => if data.peopleAlsoAsk then Wording(PeopleAlsoAskBullet) else Wording(SubheadingBullet)
    case ExternalLinks =>
      if data.internalLinks then Wording(InternalLinksBullet)
      else if data.peopleAlsoAsk then Wording(PeopleAlsoAskBullet) else Wording(SubheadingBullet)
    case FaqSection => Wording(CredibilityBullet)
  }

  /** The lines written before the section that holds the checkbox's bullet. */
  function LinesBefore(data: FormRecord, f: Flag): seq<string>
  {
    var upToObjectives := Front(data) + SectionLines(AudienceSection(data)) + SectionLines(ObjectivesSection(data));
    if IsSeoFlag(f) then upToObjectives
    else upToObjectives + SectionLines(SeoSection(data))
  }

  /** The bullets of that section written before the checkbox's bullet. */
  function BulletsBefore(data: FormRecord, f: Flag): seq<string>
  {
    var seoFixed := TitleBullets(data) + [Wording(MetaDescription)] + [Wording(KeywordPlacement)] + [Wording(KeywordDensity)] + [Wording(SemanticKeywords)];
    var structureFixed := [Wording(HookIntro)] + [Wording(H1Bullet)] + [Wording(SubheadingBullet)];
    match f
    case SchemaMarkup => seoFixed
    case FeaturedSnippet => seoFixed + When(data.schemaMarkup, Wording(SchemaBullet))
    case PeopleAlsoAsk => structureFixed
    case InternalLinks => structureFixed + When(data.peopleAlsoAsk, Wording(PeopleAlsoAskBullet))
    case ExternalLinks =>
      structureFixed + When(data.peopleAlsoAsk, Wording(PeopleAlsoAskBullet)) + When(data.internalLinks, Wording(InternalLinksBullet))
    case FaqSection =>
      structureFixed + When(data.peopleAlsoAsk, Wording(PeopleAlsoAskBullet)) + When(data.internalLinks, Wording(InternalLinksBullet))
      + When(data.externalLinks, Wording(ExternalLinksBullet)) + [Wording(CredibilityBullet)]
  }

  /** The bullets of that section written after the checkbox's bullet. */
  function BulletsAfter(data: FormRecord, f: Flag): seq<string>
  {
    match f
    case SchemaMarkup => When(data.featuredSnippet, Wording(SnippetBullet))
    case FeaturedSnippet => []
    case PeopleAlsoAsk =>
      When(data.internalLinks, Wording(InternalLinksBullet)) + When(data.externalLinks, Wording(ExternalLinksBullet))
      + [Wording(CredibilityBullet)] + When(data.faqSection, Wording(FaqBullet))
    case InternalLinks =>
      When(data.externalLinks, Wording(ExternalLinksBullet)) + [Wording(CredibilityBullet)] + When(data.faqSection, Wording(FaqBullet))
    case ExternalLinks => [Wording(CredibilityBullet)] + When(data.faqSection, Wording(FaqBullet))
    case FaqSection => []
  }

  /** The header of the section that holds the checkbox's bullet. */
  function FlagHeader(f: Flag): string
  {
    if IsSeoFlag(f) then Wording(SeoHeader) else Wording(StructureHeader)
  }

  /** The lines written after the section that holds the checkbox's bullet. */
  function LinesAfter(data: FormRecord, f: Flag): seq<string>
  {
    var fromEngagement := SectionLines(EngagementSection()) + SectionLines(TechnicalSection(data))
      + AdditionalLines(data) + SectionLines(GoalsSection());
    if IsSeoFlag(f) then SectionLines(StructureSection(data)) + fromEngagement
    else fromEngagement
  }

  // Regrouping a chain of blocks of lines, so that a block of the chain
  // stands next to the part of it that follows.

  lemma Regrouped(x: seq<string>, a: seq<string>, b: seq<string>, c: seq<string>, d: seq<string>, e: seq<string>)
    ensures x + a + b + c + d + e == x + a + (b + c + d + e)
  {
  }

  lemma RegroupedAfterTwo(x: seq<string>, a: seq<string>, b: seq<string>, c: seq<string>, d: seq<string>, e: seq<string>, g: seq<string>)
    ensures x + a + b + c + d + e + g == x + a + (b + (c + d + e + g))
  {
  }

  lemma RegroupedBullets(x: seq<string>, a: seq<string>, b: seq<string>, c: seq<string>)
    ensures x + a + b + c == x + a + (b + c)
  {
  }

  /** The section that holds a checkbox's bullet. */
  function FlagSection(data: FormRecord, f: Flag): Section
  {
    if IsSeoFlag(f) then SeoSection(data) else StructureSection(data)
  }

  predicate IsSeoFlag(f: Flag)
  {
    f == SchemaMarkup || f == FeaturedSnippet
  }

  /** The SEO section around the bullet of one of its checkboxes. */
  lemma SeoSectionAround(data: FormRecord, f: Flag)
    requires IsSeoFlag(f)
    ensures FlagSection(data, f)
      == Section(FlagHeader(f), BulletsBefore(data, f) + When(IsSet(data, f), FlagBullet(f)) + BulletsAfter(data, f))
  {
  }

  /** The structure section around the bullet of one of its first two
      checkboxes. */
  lemma EarlyStructureSectionAround(data: FormRecord, f: Flag)
    requires f == PeopleAlsoAsk || f == InternalLinks
    ensures FlagSection(data, f)
      == Section(FlagHeader(f), BulletsBefore(data, f) + When(IsSet(data, f), FlagBullet(f)) + BulletsAfter(data, f))
  {
    var fixed := [Wording(HookIntro)] + [Wording(H1Bullet)] + [Wording(SubheadingBullet)];
    var paa := When(data.peopleAlsoAsk, Wording(PeopleAlsoAskBullet));
    var internal := When(data.internalLinks, Wording(InternalLinksBullet));
    var external := When(data.externalLinks, Wording(ExternalLinksBullet));
    var credibility := [Wording(CredibilityBullet)];
    var faq := When(data.faqSection, Wording(FaqBullet));
    if f == PeopleAlsoAsk {
      Regrouped(fixed, paa, internal, external, credibility, faq);
    } else {
      Regrouped(fixed + paa, internal, external, credibility, faq, []);
      assert fixed + paa + internal + external + credibility + faq + [] == fixed + paa + internal + external + credibility + faq;
    }
  }

  /** The structure section around the bullet of one of its last two
      checkboxes. */
  lemma LateStructureSectionAround(data: FormRecord, f: Flag)
    requires f == ExternalLinks || f == FaqSection
    ensures FlagSection(data, f)
      == Section(FlagHeader(f), BulletsBefore(data, f) + When(IsSet(data, f), FlagBullet(f)) + BulletsAfter(data, f))
  {
    if f == ExternalLinks {
      var fixed := [Wording(HookIntro)] + [Wording(H1Bullet)] + [Wording(SubheadingBullet)];
      var paa := When(data.peopleAlsoAsk, Wording(PeopleAlsoAskBullet));
      var internal := When(data.internalLinks, Wording(InternalLinksBullet));
      var external := When(data.externalLinks, Wording(ExternalLinksBullet));
      RegroupedBullets(fixed + paa + internal, external, [Wording(CredibilityBullet)], When(data.faqSection, Wording(FaqBullet)));
    }
  }

  /** The lines, cut around the section that holds the bullet of an SEO
      checkbox. */
  lemma SeoLinesAround(data: FormRecord, f: Flag)
    requires IsSeoFlag(f)
    ensures Lines(data) == LinesBefore(data, f) + SectionLines(FlagSection(data, f)) + LinesAfter(data, f)
  {
    RegroupedAfterTwo(LinesBefore(data, f), SectionLines(SeoSection(data)), SectionLines(StructureSection(data)),
      SectionLines(EngagementSection()), SectionLines(TechnicalSection(data)), AdditionalLines(data), SectionLines(GoalsSection()));
  }

  /** The lines, cut around the section that holds the bullet of a
      structure checkbox. */
  lemma StructureLinesAround(data: FormRecord, f: Flag)
    requires !IsSeoFlag(f)
    ensures Lines(data) == LinesBefore(data, f) + SectionLines(FlagSection(data, f)) + LinesAfter(data, f)
  {
    Regrouped(LinesBefore(data, f), SectionLines(StructureSection(data)),
      SectionLines(EngagementSection()), SectionLines(TechnicalSection(data)), AdditionalLines(data), SectionLines(GoalsSection()));
  }

  /** The lines before a checkbox's section do not depend on it. */
  lemma LinesBeforeKept(a: FormRecord, b: FormRecord, f: Flag)
    requires Answers(a) == Answers(b)
    requires !IsSeoFlag(f) ==> a.schemaMarkup == b.schemaMarkup && a.featuredSnippet == b.featuredSnippet
    ensures LinesBefore(a, f) == LinesBefore(b, f)
  {
    CheckboxFreeParts(a, b);
    if !IsSeoFlag(f) {
      assert Answers(a).blogTitle == Answers(b).blogTitle;
      SeoKept(a, b);
    }
  }

  /** The lines after a checkbox's section do not depend on it. */
  lemma LinesAfterKept(a: FormRecord, b: FormRecord, f: Flag)
    requires Answers(a) == Answers(b)
    requires IsSeoFlag(f) ==> (a.peopleAlsoAsk == b.peopleAlsoAsk && a.internalLinks == b.internalLinks
      && a.externalLinks == b.externalLinks && a.faqSection == b.faqSection)
    ensures LinesAfter(a, f) == LinesAfter(b, f)
  {
    CheckboxFreeParts(a, b);
    if IsSeoFlag(f) {
      StructureKept(a, b);
    }
  }

  /** The SEO bullets around a checkbox's bullet do not depend on it. */
  lemma SeoBulletsKept(a: FormRecord, b: FormRecord, f: Flag)
    requires IsSeoFlag(f) && TitleBullets(a) == TitleBullets(b)
    requires f != SchemaMarkup ==> a.schemaMarkup == b.schemaMarkup
    requires f != FeaturedSnippet ==> a.featuredSnippet == b.featuredSnippet
    ensures BulletsBefore(a, f) == BulletsBefore(b, f) && BulletsAfter(a, f) == BulletsAfter(b, f)
  {
  }

  /** The structure bullets around a checkbox's bullet do not depend on it. */
  lemma StructureBulletsKept(a: FormRecord, b: FormRecord, f: Flag)
    requires !IsSeoFlag(f)
    requires f != PeopleAlsoAsk ==> a.peopleAlsoAsk == b.peopleAlsoAsk
    requires f != InternalLinks ==> a.internalLinks == b.internalLinks
    requires f != ExternalLinks ==> a.externalLinks == b.externalLinks
    requires f != FaqSection ==> a.faqSection == b.faqSection
    ensures BulletsBefore(a, f) == BulletsBefore(b, f) && BulletsAfter(a, f) == BulletsAfter(b, f)
  {
  }

  /** The lines, cut around the place of a checkbox's bullet. */
  lemma LinesAroundFlag(data: FormRecord, f: Flag)
    ensures Lines(data) == LinesBefore(data, f)
      + SectionLines(Section(FlagHeader(f), BulletsBefore(data, f) + When(IsSet(data, f), FlagBullet(f)) + BulletsAfter(data, f)))
      + LinesAfter(data, f)
  {
    if IsSeoFlag(f) {
      SeoLinesAround(data, f);
      SeoSectionAround(data, f);
    } else {
      StructureLinesAround(data, f);
      if f == PeopleAlsoAsk || f == InternalLinks {
        EarlyStructureSectionAround(data, f);
      } else {
        LateStructureSectionAround(data, f);
      }
    }
  }

  /** Setting an SEO checkbox changes nothing around its bullet. */
  lemma SeoContextKept(data: FormRecord, f: Flag)
    requires IsSeoFlag(f)
    ensures var off, on := WithFlag(data, f, false), WithFlag(data, f, true);
      LinesBefore(on, f) == LinesBefore(off, f) && BulletsBefore(on, f) == BulletsBefore(off, f)
      && BulletsAfter(on, f) == BulletsAfter(off, f) && LinesAfter(on, f) == LinesAfter(off, f)
  {
    var off, on := WithFlag(data, f, false), WithFlag(data, f, true);
    assert f != SchemaMarkup ==> IsSet(on, SchemaMarkup) == IsSet(off, SchemaMarkup);
    assert f != FeaturedSnippet ==> IsSet(on, FeaturedSnippet) == IsSet(off, FeaturedSnippet);
    assert IsSet(on, PeopleAlsoAsk) == IsSet(off, PeopleAlsoAsk) && IsSet(on, InternalLinks) == IsSet(off, InternalLinks);
    assert IsSet(on, ExternalLinks) == IsSet(off, ExternalLinks) && IsSet(on, FaqSection) == IsSet(off, FaqSection);
    LinesBeforeKept(on, off, f);
    LinesAfterKept(on, off, f);
    CheckboxFreeParts(on, off);
    SeoBulletsKept(on, off, f);
  }

  /** Setting a structure checkbox changes nothing around its bullet. */
  lemma StructureContextKept(data: FormRecord, f: Flag)
    requires !IsSeoFlag(f)
    ensures var off, on := WithFlag(data, f, false), WithFlag(data, f, true);
      LinesBefore(on, f) == LinesBefore(off, f) && BulletsBefore(on, f) == BulletsBefore(off, f)
      && BulletsAfter(on, f) == BulletsAfter(off, f) && LinesAfter(on, f) == LinesAfter(off, f)
  {
    var off, on := WithFlag(data, f, false), WithFlag(data, f, true);
    assert IsSet(on, SchemaMarkup) == IsSet(off, SchemaMarkup) && IsSet(on, FeaturedSnippet) == IsSet(off, FeaturedSnippet);
    assert f != PeopleAlsoAsk ==> IsSet(on, PeopleAlsoAsk) == IsSet(off, PeopleAlsoAsk);
    assert f != InternalLinks ==> IsSet(on, InternalLinks) == IsSet(off, InternalLinks);
    assert f != ExternalLinks ==> IsSet(on, ExternalLinks) == IsSet(off, ExternalLinks);
    assert f != FaqSection ==> IsSet(on, FaqSection) == IsSet(off, FaqSection);
    LinesBeforeKept(on, off, f);
    LinesAfterKept(on, off, f);
    StructureBulletsKept(on, off, f);
  }

  lemma LastOfAppend(x: seq<string>, y: seq<string>)
    requires y != []
    ensures (x + y)[|x + y| - 1] == y[|y| - 1]
  {
  }

  /** A bullet that `When` adds is one more line, between the same lines
      before it and after it. */
  lemma WhenSpliced(p: seq<string>, h: string, before: seq<string>, b: string, after: seq<string>, q: seq<string>)
    ensures p + SectionLines(Section(h, before + When(false, b) + after)) + q == (p + [h] + before) + (after + [""] + q)
    ensures p + SectionLines(Section(h, before + When(true, b) + after)) + q == (p + [h] + before) + [b] + (after + [""] + q)
  {
    assert before + When(false, b) + after == before + after;
  }

  /** The bullet before a checkbox's bullet is its anchor. */
  lemma AnchorPrecedes(data: FormRecord, f: Flag)
    ensures BulletsBefore(data, f) != []
    ensures BulletsBefore(data, f)[|BulletsBefore(data, f)| - 1] == Anchor(data, f)
  {
  }

  /** The lines of the form with a checkbox ticked, cut around its bullet
      by the cuts of the form with it cleared. */
  lemma TickedLinesAround(data: FormRecord, f: Flag)
    ensures var off, on := WithFlag(data, f, false), WithFlag(data, f, true);
      Lines(on) == LinesBefore(off, f)
        + SectionLines(Section(FlagHeader(f), BulletsBefore(off, f) + When(true, FlagBullet(f)) + BulletsAfter(off, f)))
        + LinesAfter(off, f)
  {
    LinesAroundFlag(WithFlag(data, f, true), f);
    if IsSeoFlag(f) {
      SeoContextKept(data, f);
    } else {
      StructureContextKept(data, f);
    }
  }

  /** The lines of the form with a checkbox cleared, cut around its place. */
  lemma ClearedLinesAround(data: FormRecord, f: Flag)
    ensures var off := WithFlag(data, f, false);
      Lines(off) == LinesBefore(off, f)
        + SectionLines(Section(FlagHeader(f), BulletsBefore(off, f) + When(false, FlagBullet(f)) + BulletsAfter(off, f)))
        + LinesAfter(off, f)
  {
    LinesAroundFlag(WithFlag(data, f, false), f);
  }

  /** The lines up to the place of a checkbox's bullet. */
  function LinesUpTo(data: FormRecord, f: Flag): seq<string>
  {
    LinesBefore(data, f) + [FlagHeader(f)] + BulletsBefore(data, f)
  }

  /** The lines from the place of a checkbox's bullet on. */
  function LinesFrom(data: FormRecord, f: Flag): seq<string>
  {
    BulletsAfter(data, f) + [""] + LinesAfter(data, f)
  }

  /** Ticking one checkbox inserts exactly its bullet, as one line, right
      after its anchor, and changes no other line. */
  lemma FlagInsertsOneLine(data: FormRecord, f: Flag)
    ensures var off, on := WithFlag(data, f, false), WithFlag(data, f, true);
      Lines(off) == LinesUpTo(off, f) + LinesFrom(off, f)
      && Lines(on) == LinesUpTo(off, f) + [FlagBullet(f)] + LinesFrom(off, f)
  {
    var off := WithFlag(data, f, false);
    TickedLinesAround(data, f);
    ClearedLinesAround(data, f);
    WhenSpliced(LinesBefore(off, f), FlagHeader(f), BulletsBefore(off, f), FlagBullet(f), BulletsAfter(off, f), LinesAfter(off, f));
  }

  /** The line before a checkbox's bullet is its anchor. */
  lemma FlagAnchored(data: FormRecord, f: Flag)
    ensures LinesUpTo(data, f) != [] && LinesUpTo(data, f)[|LinesUpTo(data, f)| - 1] == Anchor(data, f)
  {
    AnchorPrecedes(data, f);
    LastOfAppend(LinesBefore(data, f) + [FlagHeader(f)], BulletsBefore(data, f));
  }

  /** One more line in the lines is that line, with its line feed, in the
      text. */
  lemma LineSplicedInText(up: seq<string>, from: seq<string>, x: string, tail: string)
    ensures Terminated(up + from) + tail == Terminated(up) + Terminated(from) + tail
    ensures Terminated(up + [x] + from) + tail == Terminated(up) + x + "\n" + Terminated(from) + tail
  {
    TerminatedAppend(up, from);
    TerminatedAppend(up + [x], from);
    TerminatedSnoc(up, x);
  }

  /** Ticking one checkbox inserts exactly its bullet and a line feed into
      the brief, and changes nothing else in it. */
  lemma FlagInsertsOneLineInText(data: FormRecord, f: Flag)
    ensures var off, on := WithFlag(data, f, false), WithFlag(data, f, true);
      var up, from := Terminated(LinesUpTo(off, f)), Terminated(LinesFrom(off, f));
      Text(off) == up + from + Wording(ClosingSentence)
      && Text(on) == up + FlagBullet(f) + "\n" + from + Wording(ClosingSentence)
  {
    var off := WithFlag(data, f, false);
    FlagInsertsOneLine(data, f);
    LineSplicedInText(LinesUpTo(off, f), LinesFrom(off, f), FlagBullet(f), Wording(ClosingSentence));
  }
}
