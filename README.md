# Blog post prompt generator — a Dafny model of the prompt builder

The blog post prompt generator is a single web page. A marketer fills in a
form (main keyword, related keywords, title, audience, goals, drop-down
choices and six checkboxes) and gets back a long, sectioned "SEO content
brief": a prompt to paste into a language model. This project models the
page's core logic in `script.js` and proves what the brief looks like.

- **The brief builder** (`brief.dfy`) follows `buildPromptString`. The expected
  output is a specification function `Text(data)`, built from `Lines(data)`:
  - the title and introduction, then each emoji-headed section in the order
    the program writes them;
  - every line ends in a line feed, and a blank line follows the opening and
    each section;
  - the closing sentence comes last, with no line feed.
- **The builder method** `BuildPromptString` grows a `prompt` string with one
  append per `+=` of the source, under the same `if`s. It is proved equal to
  `Text(data)`. The fixed wording is one `Phrase` per literal, written out in
  `Wording`.
- **Properties of the brief** (`brief_shape.dfy`, `brief_properties.dfy`):
  - the opening and the closing;
  - the lines that are always present;
  - the title branch and the header order;
  - the number of lines;
  - each optional answer or checkbox adds exactly its own line or block, at
    one fixed place, and changes nothing else.
- **The form and its gate** (`form.dfy`, `strings.dfy`):
  - reading the form trims the seven text inputs;
  - the submit gate refuses a missing keyword, and a keyword shorter than two
    UTF-16 code units;
  - the focus-loss check tests the trimmed keyword the same way.
- **The page** (`browser_page.dfy`): `Page` is a class holding
  - the body's children, as a sequence of element ids;
  - the output element's text and whether it is shown;
  - the clipboard.

  Its methods generate and display a prompt and copy it. These browser facts
  are inputs: whether `navigator.clipboard` exists, whether the context is
  secure, how the clipboard write settles, and what `execCommand` does.

## Model

| member | source | states |
|---|---|---|
| Brief.BuildPromptString | script.js:123-228 | the built prompt is exactly `Text(data)`: the front, the sections in order, the closing sentence |
| Brief.WriteOpening | script.js:124-132 | the prompt so far is the title line with the upper-cased keyword, a blank line, the introduction with the cluster clause only when related keywords were given, and a blank line |
| Brief.AppendAudienceAndIntent | script.js:134-138 | appends exactly the audience section's lines: header, audience (or the default), search intent, funnel stage, blank line |
| Brief.AppendBusinessObjectives | script.js:140-148 | appends exactly the objectives section: post goals only if given, the primary goal always, the call to action only if given |
| Brief.AppendSeoRequirements | script.js:150-174 | appends exactly the SEO section: one of the two title branches, the four fixed bullets, then the schema and snippet bullets when ticked |
| Brief.AppendContentStructure | script.js:176-197 | appends exactly the structure section: three fixed bullets, the three optional link/question bullets, the credibility bullet, the FAQ bullet when ticked |
| Brief.AppendEngagementElements | script.js:199-205 | appends exactly the five fixed engagement bullets under their header |
| Brief.AppendTechnicalSpecs | script.js:207-212 | appends the technical section with the word count and tone verbatim, leaving its blank line to the next block |
| Brief.AppendAdditionalRequirements | script.js:214-216 | appends the additional-requirements block, header and instructions verbatim, only when instructions were given; otherwise nothing |
| Brief.AppendContentGoals | script.js:218-223 | appends the four fixed content goals under their header and a blank line |
| BriefShape.OpensWithBrief | script.js:124-127 | every brief starts with the brief marker, the upper-cased keyword, a blank line and the introduction naming the keyword in quotes |
| BriefShape.EndsWithClosing | script.js:225 | every brief ends with the fixed closing sentence |
| BriefShape.LinesAreSections | script.js:123-228 | the lines are the front followed by the sections audience, objectives, SEO, structure, engagement, technical, additional (only with instructions) and goals |
| BriefShape.HeadersInOrder | script.js:135-223 | the section headers are 👥, 🎯, 🧰, 📐, ✨, ⚙️, then 📝 exactly when there are custom instructions, then 🚀, in that order |
| BriefShape.AudienceAlwaysPresent | script.js:135-138 | right after the front come the audience header, the target audience (the typed one, or the general audience for the keyword when empty), search intent, funnel stage and a blank line |
| BriefShape.ChoicesAlwaysPresent | script.js:137-210 | the search-intent, funnel-stage, primary-goal, word-count and tone lines, each holding its answer verbatim, are always in the brief |
| BriefShape.SeoOpensWithTitle | script.js:150-161 | the SEO section opens with the given-title pair when a title was typed, and with the invent-titles pair otherwise |
| BriefShape.LineCount | script.js:123-228 | `Lines(data)`, the brief before its closing sentence, has 45 entries, plus one per optional bullet that is present, plus three for the instructions block |
| BriefShape.PostGoalsInsertsOneLine | script.js:141-143 | with post goals given, the lines are those without them plus exactly their labelled line, right after the objectives header |
| BriefShape.CallToActionInsertsOneLine | script.js:145-147 | with a call to action given, the lines are those without it plus exactly its labelled line, right after the primary goal |
| BriefShape.InstructionsInsertBlock | script.js:214-216 | with instructions given, the lines are those without them plus exactly the header, the instructions and a blank line, right before the goals section |
| BriefShape.RelatedKeywordsExtendIntro | script.js:129-132 | with related keywords given, the text is the text without them with only the cluster clause added inside the introduction |
| BriefShape.FrontKept | script.js:124-132 | the front depends only on the main and related keywords |
| BriefShape.AudienceKept | script.js:134-138 | the audience section depends only on the keyword, audience, search intent and funnel stage |
| BriefShape.ObjectivesKept | script.js:140-148 | the objectives section depends only on the post goals, primary goal and call to action |
| BriefShape.SeoKept | script.js:150-174 | the SEO section depends only on the title and the schema and snippet checkboxes |
| BriefShape.StructureKept | script.js:176-197 | the structure section depends only on its four checkboxes |
| BriefShape.TechnicalKept | script.js:207-212 | the technical section depends only on the word count and tone |
| BriefShape.InstructionsKept | script.js:214-216 | the instructions block depends only on the instructions |
| BriefProperties.CheckboxFreeParts | script.js:123-228 | the front and the audience, objectives, title, technical and instructions parts do not depend on any checkbox |
| BriefProperties.LinesAroundFlag | script.js:150-197 | the lines cut around the place of each checkbox's bullet: the lines before its section, its header, the bullets before, its bullet if ticked, the bullets after, the lines after |
| BriefProperties.FlagInsertsOneLine | script.js:168-196 | ticking one checkbox gives the lines without it plus exactly its bullet at its fixed place, every other line unchanged |
| BriefProperties.FlagAnchored | script.js:163-196 | the line before each checkbox's bullet is its anchor: the last fixed or earlier optional bullet before it |
| BriefProperties.FlagInsertsOneLineInText | script.js:168-196 | ticking one checkbox inserts exactly its bullet and a line feed into the brief text and changes nothing else in it |
| Form.CollectFormData | script.js:81-105 | each of the seven text answers is the trim of the raw value, so has no surrounding whitespace; drop-down values and checkboxes are taken unchanged |
| Form.CollectFormDataIdempotent | script.js:81-105 | reading an already read form changes nothing |
| Form.ValidateFormData | script.js:107-121 | missing keyword exactly when it is empty; accepted exactly when it has at least two UTF-16 code units |
| Form.ValidateMainKeyword | script.js:39-45 | accepted exactly when the trimmed keyword has at least two UTF-16 code units, so an all-blank keyword is refused |
| Form.FocusCheckAgreesWithGate | script.js:39-45 | on every raw input, the focus-loss check accepts exactly when the submit gate accepts the read form |
| Strings.Trim | script.js:83 | the result is one slice of the input with only ECMAScript whitespace before and after it, has no outer whitespace itself, and is empty exactly when the input is all whitespace |
| Strings.TrimFixesTrimmed | script.js:83 | trimming text without outer whitespace gives it back |
| Strings.Upper | script.js:124 | upper-casing keeps the length, maps each character and leaves no lower-case ASCII letter |
| Strings.Utf16Length | script.js:40 | a string's UTF-16 length is between its character count and twice it |
| Strings.Utf16AtLeastTwo | script.js:114 | at least two UTF-16 code units means two characters, or one astral character |
| BrowserPage.Page.DisplayGeneratedPrompt | script.js:230-231 | the output element holds the prompt and the output area is shown; body and clipboard are unchanged |
| BrowserPage.Page.GeneratePrompt | script.js:53-79 | the verdict is the gate's on the read form; when accepted, the shown prompt is the brief of the read form; when refused, nothing changes |
| BrowserPage.Page.FallbackCopyToClipboard | script.js:280-299 | the feedback is success exactly when the copy command does not throw; the body's children afterwards are those before; the clipboard holds the text only when the command copied |
| BrowserPage.Page.CopyToClipboard | script.js:263-278 | the primary route is tried exactly when the interface exists and the context is secure; it alone is used exactly when the write resolves; otherwise the fallback runs, and the body is unchanged either way |
| BrowserPage.FallbackFeedback | script.js:290-296 | the fallback reports success exactly when the copy command does not throw, whatever it returns |
| BrowserPage.WithoutAppended | script.js:285-298 | removing an element just appended, and not there before, restores the body's child list |
| BrowserPage.Without | script.js:298 | removing an element gives the children before its first occurrence followed by those after it, and the list unchanged when it is absent |
| BrowserPage.IndexOf | script.js:298 | the index found holds the element, and the element does not occur before it |
| BrowserPage.Above | script.js:281 | the new element's id differs from every child in the body |

## Left out

- DOM wiring, event listeners, the placeholder animations and the focus
  effects (script.js:1-37, 325-338) are only user-interface glue.
- The DOM reads in `collectFormData` are out of scope. The raw field values
  and checkbox states are the input record.
- The loading state of the generate button (script.js:246-256) is left out.
- The scroll into view and its `setTimeout` (script.js:233-240) are left out.
- The copy button's feedback timers (script.js:301-323) are modelled only as
  the `Feedback` value.
- `trackPromptGeneration`, `alert`, `showError`, `console` and the
  `module.exports` shim are side effects or foreign calls. They are not
  modelled.
- The focus moved back to the keyword input and the text area's focus and
  selection are not modelled.
- The styling of the temporary text area is not modelled. The text area is
  an element id.
- Asynchronous scheduling is not modelled. The clipboard write's outcome is
  an input, so its `then` or `catch` runs at once.
- `GeneratePrompt`'s `try`/`catch` is not modelled: nothing in the model can
  throw.
- Strings.Upper: ASCII letters only. Full Unicode `toUpperCase` (multi-character
  expansions, other scripts) is not modelled.
- Trimming follows the ECMAScript whitespace and line-terminator set exactly,
  not an ASCII approximation.
- BriefShape.SeoOpensWithTitle: the title branch is stated by position, as
  the two lines that open the SEO section. It does not say that the other
  branch's wording appears nowhere in the brief, since the user's own text
  may contain that wording.
- BriefShape.HeadersInOrder: the headers are stated as the exact list of
  section headers, which has 📝 exactly when there are instructions. It does
  not say that 📝 occurs nowhere in the user's text.
- BriefShape.LineCount: counts the entries of `Lines(data)`, one per
  written line. An answer that itself holds line feeds (the trim keeps inner
  line feeds) is still one entry, so the count is not the number of line
  feeds in the brief.
- BriefShape.ChoicesAlwaysPresent: states that each labelled line is among
  the brief's lines, not its index. The index is given by
  AudienceAlwaysPresent and LinesAreSections.
