# Response form: a verified model of its state machine

The repository is one React component, `ResponseForm`, that collects a
submission draft and posts it as multipart form data. A draft holds a title,
an image, a link, a description, a member count, a list of social links, a
category and a list of news links. This project models the component's state
and its handlers as a sequential state machine and proves what each handler
does to that state.

The state has four slots: the draft (`formData`), the two pending list
entries (`newSocialLink`, `newNewsItem`) and `errorMessage`.

- `component.dfy`, module `Component`: class `ResponseForm`, with the four
  slots as fields and one method per handler. `HandleSubmit` receives the
  outcome of the POST as a parameter and returns the payload it builds.
- `draft.dfy`, module `FormDraft`: the draft record and its keys, `formData[key]`
  lookup, and the pure updates the handlers compute with spread and `filter`:
  field change, add and remove for each list, and the state after a
  submission. It also holds the payload as an ordered list of named parts,
  and the lemmas about all of these.
- `errors.dfy`, module `SubmitErrors`: the rejection object (an optional
  response with status and message, whether a request went out, and the error's own
  message), the three error texts and the priority between them.
- `text.dfy`, module `JsText`: `String.prototype.trim`, using ECMAScript's
  exact set of white space and line terminator characters. It also has the
  decimal rendering of the status code inside the template literal.

Each class method is proved against a pure function of the old state
(`ensures State() == AddSocialLink(old(State()))`), and the properties are
lemmas about those functions.

Two details of the code that its form layout does not suggest, and that the model follows:

- The image part is appended on every submission, even when it is still
  `null`. The `image && formData[key]` branch and the final `else` append the
  same value.
- `activeMembers` is held and sent as the input's string value, not as a
  number.

## Model

| member | source | states |
|---|---|---|
| `Component.ResponseForm.constructor` | ResponseForm.jsx:5-18 | on mount the draft is the empty record (empty strings, `image` null, empty lists) and the pending entries and message are empty |
| `Component.ResponseForm.HandleChange` | ResponseForm.jsx:20-27 | the draft becomes `Change(old draft, event)`; the pending entries and the message are unchanged |
| `FormDraft.ChangeSetsOnlyNamedField` | ResponseForm.jsx:23-26 | after a change, the key the event names holds the event's value (the first picked file, `undefined` for an empty file list, otherwise the text); every other key keeps its old value |
| `Component.ResponseForm.HandleReset` | ResponseForm.jsx:29-44 | the state becomes the initial state whatever it was, so a second reset leaves it as the first one did |
| `Component.ResponseForm.SetNewSocialLink` | ResponseForm.jsx:202 | typing in the social input replaces only `newSocialLink` |
| `Component.ResponseForm.SetNewNewsItem` | ResponseForm.jsx:251 | typing in the news input replaces only `newNewsItem` |
| `Component.ResponseForm.HandleAddSocialLink` | ResponseForm.jsx:46-57 | the new state is `AddSocialLink` of the old one |
| `FormDraft.AddSocialLinkEffect` | ResponseForm.jsx:46-57 | a blank pending link changes nothing at all; a non-blank one is appended untrimmed at the end of `socials` and `newSocialLink` is cleared, and no other slot or draft field changes |
| `Component.ResponseForm.HandleAddNewsItem` | ResponseForm.jsx:67-78 | the new state is `AddNewsItem` of the old one |
| `FormDraft.AddNewsItemEffect` | ResponseForm.jsx:67-78 | the same behaviour on `news` and `newNewsItem`: a blank entry is a no-op, otherwise it is appended as typed and the entry is cleared, and nothing else changes |
| `FormDraft.EditorsAreIndependent` | ResponseForm.jsx:46-86 | the social add and remove never touch `news` or `newNewsItem`; the news add and remove never touch `socials` or `newSocialLink`; the two adds commute |
| `JsText.TrimEmptyIffBlank` | ResponseForm.jsx:47 | `s.trim()` is empty exactly when every character of `s` is a white space or line terminator character |
| `JsText.TrimIsInnerSlice` | ResponseForm.jsx:68 | `trim` returns a contiguous slice `s[i..j]` of its input, everything before `i` and after `j` is white space, and the slice neither starts nor ends with white space |
| `Component.ResponseForm.HandleRemoveSocialLink` | ResponseForm.jsx:59-65 | the new state is `RemoveSocialLink(old state, index)`: only `socials` changes |
| `Component.ResponseForm.HandleRemoveNewsItem` | ResponseForm.jsx:80-86 | the new state is `RemoveNewsItem(old state, index)`: only `news` changes |
| `FormDraft.RemoveIndexDeletesOne` | ResponseForm.jsx:63 | filtering out position `index` gives `s[..index] + s[index+1..]` when the index is in range, and the unchanged list when it is negative or too large |
| `FormDraft.RemoveIndexShifts` | ResponseForm.jsx:84 | for an index in range the length drops by one, elements before it stay in place, and elements after it move down by one, keeping their order |
| `FormDraft.RemoveUndoesAddSocialLink` | ResponseForm.jsx:46-65 | removing at the last index right after a successful social add gives back the draft as it was |
| `FormDraft.RemoveUndoesAddNewsItem` | ResponseForm.jsx:67-86 | removing at the last index right after a successful news add gives back the draft as it was |
| `FormDraft.SocialEditorScenario` | ResponseForm.jsx:46-65 | adding `"https://x.com"` gives `["https://x.com"]` with the pending entry cleared; a following add of `"  "` changes nothing; removing index 0 then gives `[]` |
| `Component.ResponseForm.BuildPayload` | ResponseForm.jsx:93-105 | the loop over the draft's keys, with its three branches, produces exactly `Payload(formData)` |
| `FormDraft.PartsForLength` | ResponseForm.jsx:94-105 | iterating over a key list yields one part per key, the part for key `i` at position `i` |
| `FormDraft.PayloadLayout` | ResponseForm.jsx:93-105 | the payload is title, image, link, description, activeMembers, socials, category, news, in that order; socials and news go as JSON text of the lists, every other field as its raw value, and image is present even when it is null or undefined |
| `FormDraft.PayloadNamesDistinct` | ResponseForm.jsx:94 | no part name occurs twice, so each draft key is sent exactly once |
| `Component.ResponseForm.HandleSubmit` | ResponseForm.jsx:88-131 | the payload sent is built from the draft as it was at submission; the final state is `AfterSubmit(old state, outcome)` |
| `FormDraft.AfterSubmitEffect` | ResponseForm.jsx:107-130 | success leaves the initial state; failure keeps the draft and both pending entries and leaves a non-empty message beginning "Error" |
| `SubmitErrors.Message` | ResponseForm.jsx:116-130 | every failure produces a message of at least seven characters beginning "Error"; with a response it continues with a space and the status digits, whether or not a request was also recorded, and without one it continues with ": " |
| `SubmitErrors.MessageReadsBack` | ResponseForm.jsx:118-129 | with a response, after "Error " come digits that parse to the response status, then ": ", then exactly the shown server message; with no response but a request sent, the text after "Error: " is the connectivity advice; otherwise it is the error's own message |
| `SubmitErrors.ShownMessage` | ResponseForm.jsx:122 | the server's message is shown when it is a non-empty string; otherwise "Unknown error occurred" is shown; the result is never empty |
| `SubmitErrors.ServerRejectedStandsApart` | ResponseForm.jsx:118-128 | a message for a server response never equals the message of either other kind of failure |
| `SubmitErrors.ResponseMessageInjective` | ResponseForm.jsx:122 | two equal status messages have the same status code and the same shown text |
| `SubmitErrors.NoResponseLooksLikeSetupOnlyByWording` | ResponseForm.jsx:123-128 | the connectivity message equals a setup message exactly when the setup error's own text is the connectivity advice |
| `JsText.Decimal` | ResponseForm.jsx:122 | a status renders as a non-empty string of decimal digits with no leading zero |
| `JsText.DecimalInjective` | ResponseForm.jsx:122 | two statuses render the same exactly when they are equal (decimal parsing inverts the rendering) |

## Left out

- The POST itself: the request library, the endpoint URL and the headers are a network call, so the model takes only its outcome as a parameter of `HandleSubmit`.
- `alert`, every `console.log`/`console.error` and `e.preventDefault()`: these are I/O with no effect on the component's state.
- Rendering: all JSX, class names and the browser's native constraints (`required`, `type="url"`, `accept`). The code never checks these itself.
- `FormData` and `JSON.stringify` internals: a part records the value passed to `append`, and the JSON text is kept symbolic as the value it encodes. The conversion of `null` and `undefined` to the text `"null"` and `"undefined"` is not modelled.
- `HandleSubmit`: clearing `errorMessage` first is done, but nothing in the model can observe the state before the request settles. The async suspension, overlapping submissions and React's batching of updates are concurrency matters. The same goes for `handleChange` spreading the `formData` of the last render rather than the latest state.
- `HandleChange`: only the inputs the form wires to it are modelled: five text inputs and the `image` file input. An event with any other name, or a text value sent to `image`, cannot be expressed.
- `SubmitErrors.RequestError`: the response body is assumed to be present. A body of `null` would make `error.response.data.message` throw inside the `catch`, leaving the message empty; that is not modelled. A truthy non-string `message` is not modelled either, since it would appear in its string form.
- `JsText.Decimal`: the status is taken to be a non-negative integer, as HTTP status codes are; JavaScript's rendering of other numbers is not modelled.
