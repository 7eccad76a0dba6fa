/**
 * The session state of the Legacy dashboard (components/Dashboard.tsx):
 * the story ledger, the drafts, the recording flag, the selected story and
 * the request/response cycle of the AI companion.
 */
module Dashboard {
  import opened Types
  import opened JsString

  // ---------------------------------------------------------------------------
  // Badges: a pure function of the number of saved stories

  /** The milestone captions, in display order. */
  const BadgeCaptions: seq<string> := ["First Story", "Storyteller", "Memory Keeper", "Legacy Builder"]

  /** The number of stories each milestone needs, in the same order. */
  const BadgeThresholds: seq<nat> := [1, 5, 10, 20]

  /** The badge list shown for a ledger of `count` stories. */
  function BadgesFor(count: nat): (bs: seq<Badge>)
    ensures |bs| == |BadgeCaptions| == |BadgeThresholds|
    ensures forall k :: 0 <= k < |bs| ==>
      bs[k].caption == BadgeCaptions[k] && (bs[k].unlocked <==> count >= BadgeThresholds[k])
  {
    [ Badge("First Story", count >= 1),
      Badge("Storyteller", count >= 5),
      Badge("Memory Keeper", count >= 10),
      Badge("Legacy Builder", count >= 20) ]
  }

  /** How many of the badges in `bs` are unlocked. */
  function UnlockedCount(bs: seq<Badge>): nat {
    if bs == [] then 0 else (if bs[0].unlocked then 1 else 0) + UnlockedCount(bs[1..])
  }

  /** A badge unlocked with `m` stories stays unlocked with any `n >= m` stories. */
  lemma BadgesMonotone(m: nat, n: nat, k: nat)
    requires m <= n && k < |BadgesFor(m)|
    ensures BadgesFor(m)[k].unlocked ==> BadgesFor(n)[k].unlocked
  {
  }

  /** The unlocked badges always form a prefix of the list: a later milestone implies every earlier one. */
  lemma UnlockedBadgesArePrefix(count: nat, i: nat, j: nat)
    requires i <= j < |BadgesFor(count)|
    ensures BadgesFor(count)[j].unlocked ==> BadgesFor(count)[i].unlocked
  {
  }

  /** The number of unlocked badges at and around every threshold. */
  lemma {:induction false} BadgeBoundaries(count: nat)
    ensures UnlockedCount(BadgesFor(count)) ==
      if count < 1 then 0 else if count < 5 then 1 else if count < 10 then 2 else if count < 20 then 3 else 4
  {
    var bs := BadgesFor(count);
    assert bs[3..][1..] == [];
    assert UnlockedCount(bs[3..]) == (if count >= 20 then 1 else 0);
    assert bs[2..][1..] == bs[3..];
    assert UnlockedCount(bs[2..]) == (if count >= 10 then 1 else 0) + UnlockedCount(bs[3..]);
    assert bs[1..][1..] == bs[2..];
    assert UnlockedCount(bs[1..]) == (if count >= 5 then 1 else 0) + UnlockedCount(bs[2..]);
    assert UnlockedCount(bs) == (if count >= 1 then 1 else 0) + UnlockedCount(bs[1..]);
  }

  // ---------------------------------------------------------------------------
  // The save guard and the save button

  /** The guard of `handleSaveStory`: a save goes through exactly when neither draft is whitespace only. */
  predicate CanSave(content: string, title: string): (c: bool)
    ensures c <==> !IsBlank(content) && !IsBlank(title)
  {
    Trim(content) != [] && Trim(title) != []
  }

  /** The `disabled` condition of the Save button: it holds exactly when saving would change nothing. */
  predicate SaveDisabled(content: string, title: string): (d: bool)
    ensures d <==> !CanSave(content, title)
    ensures d <==> IsBlank(content) || IsBlank(title)
  {
    Trim(content) == [] || Trim(title) == []
  }

  // ---------------------------------------------------------------------------
  // The AI companion

  /** Shown when the endpoint answers without a usable `response` field. */
  const FallbackText: string := "Unable to generate response. Please check your API key."

  /** Shown when the request or the parsing of its answer throws. */
  const ErrorText: string := "Error connecting to AI. Please ensure your GEMINI_API_KEY is set correctly."

  /** What the awaited `fetch` and `response.json()` produced. */
  datatype AskOutcome =
    | Responded(response: Option<string>)  // a JSON body; `response` is its string field, if any
    | Failed                               // a network error, a body that is not JSON, or the JSON value `null`

  /** The message sent to the chat endpoint for a story. */
  function AskPrompt(s: Story): (m: string)
    ensures |m| == |"Tell me more about this story: "| + |s.title| + |". Content: "| + |s.content|
    ensures m[..|"Tell me more about this story: "|] == "Tell me more about this story: "
    ensures m[|"Tell me more about this story: "|..][..|s.title|] == s.title
    ensures m[|"Tell me more about this story: "| + |s.title|..][..|". Content: "|] == ". Content: "
    ensures m[|m| - |s.content|..] == s.content
  {
    "Tell me more about this story: " + s.title + ". Content: " + s.content
  }

  /** The text `handleAskAI` displays once the request has settled. */
  function ResponseText(outcome: AskOutcome): (r: string)
    ensures r != []
    ensures outcome.Responded? && outcome.response.Some? && outcome.response.value != [] ==>
      r == outcome.response.value
    ensures outcome.Responded? && (outcome.response.None? || outcome.response.value == []) ==>
      r == FallbackText
    ensures outcome.Failed? ==> r == ErrorText
  {
    match outcome
    case Responded(Some(text)) => if text != [] then text else FallbackText
    case Responded(None) => FallbackText
    case Failed => ErrorText
  }

  /** The two fixed messages can be told apart from each other. */
  lemma FixedTextsDiffer()
    ensures FallbackText != ErrorText
  {
  }

  // ---------------------------------------------------------------------------
  // The component state

  /** A story whose title and content are not whitespace only, as every saved story is. */
  predicate Filled(st: Story) {
    !IsBlank(st.title) && !IsBlank(st.content)
  }

  class DashboardState {
    var stories: seq<Story>
    var currentStory: string
    var storyTitle: string
    var isRecording: bool
    var selectedStory: Option<Story>
    var aiResponse: string
    var isLoading: bool

    /**
     * What every reachable state satisfies: every saved story has a title and
     * content that are not whitespace only, the selection is a saved story,
     * and while a request is in flight no response text is shown.
     */
    ghost predicate Valid()
      reads this
    {
      && (forall st :: st in stories ==> Filled(st))
      && (selectedStory.Some? ==> selectedStory.value in stories)
      && (isLoading ==> aiResponse == [])
    }

    /** The badges shown for the current ledger. */
    function Badges(): (bs: seq<Badge>)
      reads this
      ensures |bs| == 4
      ensures bs[0].unlocked <==> stories != []
    {
      BadgesFor(|stories|)
    }

    /** Whether the Save button is disabled for the current drafts. */
    function SaveButtonDisabled(): (d: bool)
      reads this
      ensures d <==> IsBlank(currentStory) || IsBlank(storyTitle)
    {
      SaveDisabled(currentStory, storyTitle)
    }

    /** The initial `useState` values. */
    constructor ()
      ensures Valid()
      ensures stories == [] && currentStory == [] && storyTitle == []
      ensures !isRecording && selectedStory == None && aiResponse == [] && !isLoading
    {
      stories := [];
      currentStory := [];
      storyTitle := [];
      isRecording := false;
      selectedStory := None;
      aiResponse := [];
      isLoading := false;
    }

    /** Typing into the title input. */
    method EditTitle(text: string)
      modifies this
      ensures old(Valid()) ==> Valid()
      ensures storyTitle == text
      ensures stories == old(stories) && currentStory == old(currentStory)
      ensures isRecording == old(isRecording) && selectedStory == old(selectedStory)
      ensures aiResponse == old(aiResponse) && isLoading == old(isLoading)
    {
      storyTitle := text;
    }

    /** Typing into the story text area. */
    method EditStory(text: string)
      modifies this
      ensures old(Valid()) ==> Valid()
      ensures currentStory == text
      ensures stories == old(stories) && storyTitle == old(storyTitle)
      ensures isRecording == old(isRecording) && selectedStory == old(selectedStory)
      ensures aiResponse == old(aiResponse) && isLoading == old(isLoading)
    {
      currentStory := text;
    }

    /**
     * Evaluates the save guard `CanSave` on the current drafts. It is not a second guard: it exists so
     * that `SaveStory` sees only this contract, and the definition of `Trim` stays out of its proof.
     */
    method DraftsSavable() returns (ok: bool)
      ensures ok <==> !IsBlank(currentStory) && !IsBlank(storyTitle)
    {
      ok := CanSave(currentStory, storyTitle);
    }

    /**
     * `handleSaveStory`: when both drafts are non-blank, prepend a story made
     * of the untrimmed drafts and clear them; otherwise change nothing.
     * `id` and `date` stand for the clock and locale readings.
     */
    method SaveStory(id: string, date: string) returns (saved: bool)
      requires Valid()
      modifies this
      ensures Valid()
      ensures saved <==> !IsBlank(old(currentStory)) && !IsBlank(old(storyTitle))
      ensures saved ==>
        && stories == [Story(id, old(storyTitle), old(currentStory), date)] + old(stories)
        && currentStory == [] && storyTitle == []
      ensures !saved ==>
        stories == old(stories) && currentStory == old(currentStory) && storyTitle == old(storyTitle)
      ensures |stories| >= |old(stories)|
      ensures forall k :: 0 <= k < 4 ==> old(Badges())[k].unlocked ==> Badges()[k].unlocked
      ensures isRecording == old(isRecording) && selectedStory == old(selectedStory)
      ensures aiResponse == old(aiResponse) && isLoading == old(isLoading)
    {
      saved := DraftsSavable();
      if saved {
        var story := Story(id, storyTitle, currentStory, date);
        stories := [story] + stories;
        currentStory := [];
        storyTitle := [];
      }
      forall k | 0 <= k < 4 ensures old(Badges())[k].unlocked ==> Badges()[k].unlocked {
        BadgesMonotone(|old(stories)|, |stories|, k);
      }
    }

    /** Clicking the `i`-th story of the rendered list selects it. */
    method SelectStory(i: nat)
      requires Valid() && i < |stories|
      modifies this
      ensures Valid()
      ensures selectedStory == Some(old(stories)[i])
      ensures stories == old(stories) && currentStory == old(currentStory) && storyTitle == old(storyTitle)
      ensures isRecording == old(isRecording)
      ensures aiResponse == old(aiResponse) && isLoading == old(isLoading)
    {
      selectedStory := Some(stories[i]);
    }

    /** The Record button: sets the flag (the accompanying alert is UI only). */
    method StartRecording()
      requires Valid()
      modifies this
      ensures Valid()
      ensures isRecording
      ensures stories == old(stories) && currentStory == old(currentStory) && storyTitle == old(storyTitle)
      ensures selectedStory == old(selectedStory)
      ensures aiResponse == old(aiResponse) && isLoading == old(isLoading)
    {
      isRecording := true;
    }

    /** The Stop button: clears the flag. */
    method StopRecording()
      requires Valid()
      modifies this
      ensures Valid()
      ensures !isRecording
      ensures stories == old(stories) && currentStory == old(currentStory) && storyTitle == old(storyTitle)
      ensures selectedStory == old(selectedStory)
      ensures aiResponse == old(aiResponse) && isLoading == old(isLoading)
    {
      isRecording := false;
    }

    /**
     * The synchronous part of `handleAskAI`: with no story selected nothing
     * happens and no request is issued; otherwise the loading flag is set, the
     * response is cleared and the returned prompt is the request's message.
     */
    method BeginAsk() returns (request: Option<string>)
      requires Valid()
      modifies this
      ensures Valid()
      ensures old(selectedStory).None? ==> request == None && aiResponse == old(aiResponse) && isLoading == old(isLoading)
      ensures old(selectedStory).Some? ==>
        request == Some(AskPrompt(old(selectedStory).value)) && isLoading && aiResponse == []
      ensures stories == old(stories) && currentStory == old(currentStory) && storyTitle == old(storyTitle)
      ensures isRecording == old(isRecording) && selectedStory == old(selectedStory)
    {
      if selectedStory.None? {
        return None;
      }
      isLoading := true;
      aiResponse := [];
      request := Some(AskPrompt(selectedStory.value));
    }

    /** The part of `handleAskAI` after the request settles: show the outcome's text and stop loading. */
    method CompleteAsk(outcome: AskOutcome)
      requires Valid()
      modifies this
      ensures Valid()
      ensures aiResponse == ResponseText(outcome) && aiResponse != [] && !isLoading
      ensures stories == old(stories) && currentStory == old(currentStory) && storyTitle == old(storyTitle)
      ensures isRecording == old(isRecording) && selectedStory == old(selectedStory)
    {
      aiResponse := ResponseText(outcome);
      isLoading := false;
    }

    /** The whole of `handleAskAI` when nothing else happens while the request is in flight. */
    method AskAI(outcome: AskOutcome) returns (request: Option<string>)
      requires Valid()
      modifies this
      ensures Valid()
      ensures old(selectedStory).None? ==> request == None && aiResponse == old(aiResponse) && isLoading == old(isLoading)
      ensures old(selectedStory).Some? ==>
        request == Some(AskPrompt(old(selectedStory).value)) && aiResponse == ResponseText(outcome) && !isLoading
      ensures stories == old(stories) && currentStory == old(currentStory) && storyTitle == old(storyTitle)
      ensures isRecording == old(isRecording) && selectedStory == old(selectedStory)
    {
      request := BeginAsk();
      if request.Some? {
        CompleteAsk(outcome);
      }
    }
  }
}
