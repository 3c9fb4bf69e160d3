/** The page around the prompt builder: generating and showing a prompt,
    and copying it to the clipboard with the modern clipboard interface or
    the older copy-command fallback. What the browser decides (whether the
    interface exists, whether the context is secure, how the asynchronous
    write ends, whether the copy command throws) is passed in. */
module BrowserPage {
  import opened Form
  import opened Brief

  /** A child element of the document body. */
  type ElementId = nat

  /** How the asynchronous clipboard write settles. */
  datatype WriteOutcome = Resolved | Rejected

  /** What the copy command does: return a flag, or throw. */
  datatype CommandOutcome = Returned(copied: bool) | Threw

  /** The feedback the copy button shows. */
  datatype Feedback = CopySucceeded | CopyFailed

  /** Which way a copy went. */
  datatype Route = PrimaryOnly | PrimaryThenFallback | FallbackOnly

  /** A number above every element of `ids`. */
  function Above(ids: seq<ElementId>): (n: ElementId)
    ensures forall i :: 0 <= i < |ids| ==> ids[i] < n
  {
    if ids == [] then 0
    else
      var rest := Above(ids[..|ids| - 1]);
      if ids[|ids| - 1] < rest then rest else ids[|ids| - 1] + 1
  }

  /** Where `x` first occurs in `ids`. */
  function IndexOf(ids: seq<ElementId>, x: ElementId): (k: nat)
    requires x in ids
    ensures k < |ids| && ids[k] == x && x !in ids[..k]
  {
    if ids[0] == x then 0
    else
      var k := IndexOf(ids[1..], x);
      assert ids[..k + 1] == [ids[0]] + ids[1..][..k];
      k + 1
  }

  /** `ids` with the first occurrence of `x` taken out: everything before
      it, then everything after it. */
  function Without(ids: seq<ElementId>, x: ElementId): (r: seq<ElementId>)
    ensures x !in ids ==> r == ids
    ensures x in ids ==> r == ids[..IndexOf(ids, x)] + ids[IndexOf(ids, x) + 1..]
    ensures x in ids ==> |r| == |ids| - 1
  {
    if ids == [] then []
    else if ids[0] == x then ids[1..]
    else
      var rest := Without(ids[1..], x);
      if x in ids[1..] then
        ConsSplit(ids, IndexOf(ids[1..], x));
        [ids[0]] + rest
      else
        [ids[0]] + rest
  }

  /** Splitting the tail of `ids` at `k` and putting the head back splits
      `ids` at `k + 1`. */
  lemma ConsSplit(ids: seq<ElementId>, k: nat)
    requires k < |ids| - 1
    ensures [ids[0]] + (ids[1..][..k] + ids[1..][k + 1..]) == ids[..k + 1] + ids[k + 2..]
  {
    assert ids[..k + 1] == [ids[0]] + ids[1..][..k];
    assert ids[k + 2..] == ids[1..][k + 1..];
  }

  /** Taking out an element just appended, that was not there before, gives
      back the list as it was. */
  lemma {:induction false} WithoutAppended(ids: seq<ElementId>, x: ElementId)
    requires x !in ids
    ensures Without(ids + [x], x) == ids
  {
    if ids != [] {
      assert (ids + [x])[1..] == ids[1..] + [x];
      WithoutAppended(ids[1..], x);
    }
  }

  /** Whether the primary route is tried: the clipboard interface exists and
      the context is secure. */
  predicate TriesPrimary(hasClipboardApi: bool, isSecureContext: bool)
  {
    hasClipboardApi && isSecureContext
  }

  /** The feedback of the fallback: success exactly when the copy command
      does not throw, whatever flag it returns. */
  function FallbackFeedback(command: CommandOutcome): (f: Feedback)
    ensures f == CopySucceeded <==> !command.Threw?
  {
    if command.Threw? then CopyFailed else CopySucceeded
  }

  class Page {
    /** The child elements of the document body. */
    var body: seq<ElementId>
    /** The text of the generated-prompt element. */
    var generatedPrompt: string
    /** Whether the output area is displayed. */
    var outputShown: bool
    /** What the system clipboard holds. */
    var clipboard: string

    constructor (children: seq<ElementId>, clipboardText: string)
      ensures body == children && generatedPrompt == "" && !outputShown && clipboard == clipboardText
    {
      body := children;
      generatedPrompt := "";
      outputShown := false;
      clipboard := clipboardText;
    }

    /** Puts the prompt in the output element and shows the output area. */
    method DisplayGeneratedPrompt(prompt: string)
      modifies this
      ensures generatedPrompt == prompt && outputShown
      ensures body == old(body) && clipboard == old(clipboard)
    {
      generatedPrompt := prompt;
      outputShown := true;
    }

    /** The submit handler: read the form, stop at the gate if it refuses,
        otherwise build the brief and show it. */
    method GeneratePrompt(raw: FormRecord) returns (verdict: Verdict)
      modifies this
      ensures verdict == ValidateFormData(CollectFormData(raw))
      ensures verdict == Accepted ==> generatedPrompt == Text(CollectFormData(raw)) && outputShown
      ensures verdict != Accepted ==> generatedPrompt == old(generatedPrompt) && outputShown == old(outputShown)
      ensures body == old(body) && clipboard == old(clipboard)
    {
      var data := CollectFormData(raw);
      verdict := ValidateFormData(data);
      if verdict != Accepted {
        return;
      }
      var prompt := BuildPromptString(data);
      DisplayGeneratedPrompt(prompt);
    }

    /** The fallback copy: append a hidden text area holding `text`, select
        it, run the copy command, and remove the text area again whether the
        command threw or not. */
    method FallbackCopyToClipboard(text: string, command: CommandOutcome) returns (feedback: Feedback)
      modifies this
      ensures feedback == FallbackFeedback(command)
      ensures clipboard == if command == Returned(true) then text else old(clipboard)
      ensures body == old(body)
      ensures generatedPrompt == old(generatedPrompt) && outputShown == old(outputShown)
    {
      var textArea := Above(body);
      body := body + [textArea];
      if command.Threw? {
        feedback := CopyFailed;
      } else {
        if command.copied {
          clipboard := text;
        }
        feedback := CopySucceeded;
      }
      WithoutAppended(old(body), textArea);
      body := Without(body, textArea);
    }

    /** The copy button: write the shown prompt with the clipboard interface
        when it exists and the context is secure, falling back to the copy
        command when it does not or when the write is rejected. */
    method CopyToClipboard(hasClipboardApi: bool, isSecureContext: bool, write: WriteOutcome, command: CommandOutcome)
      returns (feedback: Feedback, route: Route)
      modifies this
      ensures route != FallbackOnly <==> TriesPrimary(hasClipboardApi, isSecureContext)
      ensures route == PrimaryOnly <==> TriesPrimary(hasClipboardApi, isSecureContext) && write == Resolved
      ensures feedback == if route == PrimaryOnly then CopySucceeded else FallbackFeedback(command)
      ensures clipboard
        == if route == PrimaryOnly || command == Returned(true) then old(generatedPrompt) else old(clipboard)
      ensures body == old(body)
      ensures generatedPrompt == old(generatedPrompt) && outputShown == old(outputShown)
    {
      var promptText := generatedPrompt;
      if hasClipboardApi && isSecureContext {
        if write == Resolved {
          clipboard := promptText;
          feedback, route := CopySucceeded, PrimaryOnly;
        } else {
          feedback := FallbackCopyToClipboard(promptText, command);
          route := PrimaryThenFallback;
        }
      } else {
        feedback := FallbackCopyToClipboard(promptText, command);
        route := FallbackOnly;
      }
    }
  }
}
