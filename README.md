# Legacy dashboard session state, in Dafny

Legacy is a client-side web application for writing and saving short personal
stories. Saved stories unlock milestone badges, and a saved story can be sent to
a chat endpoint for an AI-written elaboration. Apart from App.tsx's two-value view switch, the only
component with state is the dashboard (`components/Dashboard.tsx`). This project models that state and
proves what its handlers do.

- `types.dfy` (module `Types`): the `Story` and `Badge` records of `types.ts`,
  plus `Option` for the `Story | null` selection. `Badge.label` is called
  `caption` because `label` is a Dafny keyword.
- `jsstring.dfy` (module `JsString`): JavaScript's `String.prototype.trim`. It
  uses the ECMAScript WhiteSpace and LineTerminator code points. `IsBlank(s)`
  holds when every character of `s` is whitespace. A trimmed string is truthy
  exactly when it is non-empty.
- `dashboard.dfy` (module `Dashboard`):
  - the badge derivation, as a function of the story count;
  - the save guard and the Save button's `disabled` condition;
  - the prompt sent for a story;
  - the text shown for each outcome of the AI request;
  - the class `DashboardState`. Its fields are the seven `useState` slots, and
    its methods are the event handlers.

`DashboardState.Valid()` is the invariant every handler keeps:

- every saved story's title and content are not whitespace only;
- the selected story, if any, is one of the saved stories;
- while a request is in flight, no response text is shown.

`handleAskAI` is split in two at its first `await`. `BeginAsk` is the synchronous
part: the selection check, setting the loading flag and clearing the response.
It returns the request's message, or `None` when no request is issued.
`CompleteAsk(outcome)` is the part after the request settles. Its `AskOutcome`
argument says what `fetch` plus `response.json()` produced: a JSON body whose
`response` field may hold a string, or a thrown error. `AskAI` runs the two in
sequence.

`fetch` does not reject on a non-2xx status. An error status with a JSON body
therefore takes the `Responded` path, and the user sees either its `response`
field or the "Unable to generate response" text. Only a network error, a body
that is not JSON, or the JSON value `null` (whose `response` lookup throws)
gives the "Error connecting to AI" text.

## Model

| member | source | states |
|---|---|---|
| `JsString.TrimStart` | components/Dashboard.tsx:25 | The result is the suffix of the input left after removing all leading whitespace. Everything removed is whitespace, and the result is empty or starts with a non-whitespace character. |
| `JsString.TrimEnd` | components/Dashboard.tsx:25 | The result is the prefix of the input left after removing all trailing whitespace. Everything removed is whitespace, and the result is empty or ends with a non-whitespace character. |
| `JsString.Trim` | components/Dashboard.tsx:25 | `s.trim()` is no longer than `s`, and it is empty or both starts and ends with a non-whitespace character. |
| `JsString.TrimIsInfix` | components/Dashboard.tsx:25 | `s.trim()` is a contiguous slice of `s`, and everything before and after that slice is whitespace. |
| `JsString.TrimEmptyIffBlank` | components/Dashboard.tsx:25 | `s.trim()` is the empty (falsy) string exactly when `s` consists of whitespace only. |
| `Dashboard.BadgesFor` | components/Dashboard.tsx:17-22 | There are always four badges. Badge k carries caption k of "First Story", "Storyteller", "Memory Keeper", "Legacy Builder", and it is unlocked iff the story count is at least threshold k of 1, 5, 10, 20. |
| `Dashboard.BadgesMonotone` | components/Dashboard.tsx:17-22 | A badge unlocked at some story count stays unlocked at every larger count. |
| `Dashboard.UnlockedBadgesArePrefix` | components/Dashboard.tsx:17-22 | If a later badge is unlocked, every earlier badge is unlocked too. |
| `Dashboard.BadgeBoundaries` | components/Dashboard.tsx:17-22 | The number of unlocked badges is 0 below 1 story, 1 for 1-4 stories, 2 for 5-9, 3 for 10-19 and 4 from 20 on. |
| `Dashboard.CanSave` | components/Dashboard.tsx:25 | The save guard `currentStory.trim() && storyTitle.trim()` holds iff neither draft is whitespace only. |
| `Dashboard.SaveDisabled` | components/Dashboard.tsx:128 | The Save button's `disabled` expression holds exactly when the save guard fails, that is, when some draft is whitespace only. |
| `Dashboard.AskPrompt` | components/Dashboard.tsx:51 | The message is the fixed lead-in, then the story's title, then ". Content: ", then the story's content, and nothing else: its length is the sum of the four parts. |
| `Dashboard.ResponseText` | components/Dashboard.tsx:55-58 | The displayed text is never empty. A non-empty `response` string is shown as is. An absent or empty `response` gives the fallback text, and a thrown error gives the error text. |
| `Dashboard.FixedTextsDiffer` | components/Dashboard.tsx:56-58 | The fallback text and the error text are different strings. |
| `Dashboard.DashboardState.Badges` | components/Dashboard.tsx:17-22 | There are four badges, and the first is unlocked iff at least one story is saved. |
| `Dashboard.DashboardState.SaveButtonDisabled` | components/Dashboard.tsx:128 | The button is disabled iff the story draft or the title draft is whitespace only. |
| `Dashboard.DashboardState.constructor` | components/Dashboard.tsx:9-15 | The initial state: no stories, empty drafts, not recording, nothing selected, no response, not loading. The invariant holds. |
| `Dashboard.DashboardState.EditTitle` | components/Dashboard.tsx:106 | The title draft becomes the typed text, nothing else changes, and the invariant is kept. |
| `Dashboard.DashboardState.EditStory` | components/Dashboard.tsx:118 | The story draft becomes the typed text, nothing else changes, and the invariant is kept. |
| `Dashboard.DashboardState.DraftsSavable` | components/Dashboard.tsx:25 | Evaluating the save guard on the current drafts gives true iff neither draft is whitespace only. |
| `Dashboard.DashboardState.SaveStory` | components/Dashboard.tsx:24-36 | A save happens iff neither draft is whitespace only. If it happens, the ledger becomes the new story (given id, untrimmed title and content, given date) followed by the old ledger in order, and both drafts become empty. If it does not, the ledger and drafts are unchanged. The ledger never shrinks, no unlocked badge becomes locked, and the other fields and the invariant are kept. |
| `Dashboard.DashboardState.SelectStory` | components/Dashboard.tsx:176-179 | Clicking the i-th listed story makes it the selection. Nothing else changes, and the invariant is kept. |
| `Dashboard.DashboardState.StartRecording` | components/Dashboard.tsx:64-68 | The recording flag becomes true. Stories, drafts, selection and the AI state are unchanged. |
| `Dashboard.DashboardState.StopRecording` | components/Dashboard.tsx:70-72 | The recording flag becomes false. Stories, drafts, selection and the AI state are unchanged. |
| `Dashboard.DashboardState.BeginAsk` | components/Dashboard.tsx:38-53 | With nothing selected, no request is issued and nothing changes. Otherwise the request's message is the prompt for the selected story, the loading flag is set and the response is cleared. Nothing else changes. |
| `Dashboard.DashboardState.CompleteAsk` | components/Dashboard.tsx:55-61 | The response becomes the outcome's (non-empty) text and the loading flag is cleared, whatever the outcome. Nothing else changes. |
| `Dashboard.DashboardState.AskAI` | components/Dashboard.tsx:38-62 | With nothing selected, the handler is a no-op that issues no request. Otherwise it issues the story's prompt and ends with the outcome's text shown and loading false. Stories, drafts, recording flag and selection are unchanged. |

## Left out

- The `fetch` call, its headers and JSON encoding, and `response.json()` (components/Dashboard.tsx:45-55) are network I/O. They are replaced by the `AskOutcome` parameter.
- `ResponseText`: a `response` field holding a truthy value that is not a string is not modelled, because `AskOutcome` only carries strings. Such a value is stored in `aiResponse` unchanged. A number is then shown, `true` shows an empty panel, and a plain object makes the render at components/Dashboard.tsx:216 throw.
- The `async` interleaving of `handleAskAI` is not modelled: a second click, another handler or an unmount while a request is in flight. `AskAI` covers only the case where nothing happens between the two halves. The invariant that no response is shown while loading holds only in that sequential model.
- `Date.now().toString()` and `toLocaleDateString()` (components/Dashboard.tsx:27, 30) read the clock and the locale. They are parameters of `SaveStory`. Ids are not claimed to be unique, because nothing in the code ensures it.
- The `alert` in `startRecording` (components/Dashboard.tsx:67) and all rendering (components/Dashboard.tsx:74-225) are UI. The `isLoading` guard on the Ask button (components/Dashboard.tsx:206) is rendering too, so `BeginAsk` does not require `!isLoading`.
- `SelectStory` stores a copy of the story value where JavaScript stores a reference to the same object. Stories are never mutated, so the two cannot be told apart.
- components/LandingPage.tsx is static markup, and App.tsx is a two-value view switch. Neither is part of this model.
