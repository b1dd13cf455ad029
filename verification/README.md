# SoftSell chat widget and contact form, modelled in Dafny

SoftSell is a single-page site for reselling unused software licences. Two of its
components hold logic with behaviour worth stating:

- **The chat widget** (`src/components/ChatWidget.tsx`). It keeps a transcript
  of numbered `{id, text, sender}` messages and a role-tagged history of
  `{role, content}` turns. The history starts with a system turn and the
  assistant's greeting. The widget also keeps the flags `isOpen` and `isTyping`
  and the input box's text. A send does the following:
  - It ignores blank text.
  - It appends the user's message and stores the history extended by the
    user's turn.
  - It asks a hosted completion service with that extended history.
  - It shows the reply, or a fixed fallback when the reply is empty, and
    records it as an assistant turn.
  - If the call fails, it shows a fixed apology and records nothing more.
  - It always clears `isTyping` at the end.
- **The contact form** (`src/components/ContactForm.tsx`). It has five text
  fields and a validator that maps each failing field to its message. The
  e-mail must match `^[^\s@]+@[^\s@]+\.[^\s@]+$`. A field change stores the
  value and drops that field's error. A submit either shows the errors or
  starts submitting. A deferred completion step then clears the form and marks
  it sent.

The files:

- `js_core.dfy` (module `JsCore`) states the JavaScript built-ins the components
  rely on: the white-space class shared by `trim` and `\s`, and `trim` itself.
  It also holds a first-occurrence search. The components call no such search;
  it is the model's own means of deciding the e-mail regular expression left
  to right (`Contact.IsValidEmail`), and `Contact.EmailCheckIsPattern` ties
  that decision to the pattern.
- `contact.dfy` (module `Contact`) holds the form data, the e-mail pattern in two
  forms proved equal, the validator and its properties, and the `ContactForm`
  class.
- `chat.dfy` (module `Chat`) models the conversation:
  - the message, turn and outcome types;
  - the transcript and history that a log of completed sends determines, with
    their properties;
  - the `ChatWidget` class, whose invariant ties its fields to that log.

The completion service is a function from the request's history to an
`Outcome`. Either the call returned a list of choices, each with a content that
may be null, or the call threw. A send is atomic: its request is answered before
the next send starts.

## Model

| member | source | states |
|---|---|---|
| `JsCore.Trim` | src/components/ChatWidget.tsx:45 | `trim` returns an infix of the text that neither starts nor ends with white space, and everything it drops before and after that infix is white space |
| `JsCore.TrimEmptyIffBlank` | src/components/ContactForm.tsx:30 | `!s.trim()` holds exactly when every character of `s` is white space, the test used on the chat input and on the name, e-mail and company fields |
| `JsCore.IndexOfFindsFirst` | src/components/ContactForm.tsx:36 | the search the e-mail check relies on returns the position of the first '@' when no earlier '@' exists |
| `Contact.FormData.With` | src/components/ContactForm.tsx:53-56 | the updated form data holds the new value in the named field, and every other field keeps its value |
| `Contact.EmailCheckIsPattern` | src/components/ContactForm.tsx:36 | the left-to-right e-mail check accepts a text exactly when the text splits as atom '@' atom '.' atom, with no white space or '@' in any atom, as the regular expression requires |
| `Contact.Validate` | src/components/ContactForm.tsx:27-49 | error keys are among name, e-mail, company and licence type, and `message` never gets one. Name and company get "... is required" exactly when blank. E-mail gets "Email is required" when blank and "Email is invalid" when not blank but off the pattern. Licence type gets its message exactly when the raw value is "" |
| `Contact.ValidateAcceptsIff` | src/components/ContactForm.tsx:27-49 | the error map is empty exactly when name and company are not blank, the e-mail matches the pattern and a licence type is chosen |
| `Contact.ValidateIgnoresMessage` | src/components/ContactForm.tsx:27-49 | changing the message text never changes the validation result |
| `Contact.ValidateIsLocal` | src/components/ContactForm.tsx:27-49 | changing one field changes neither the presence nor the text of any other field's error |
| `Contact.ContactForm.constructor` | src/components/ContactForm.tsx:15-25 | the form starts with five empty fields, no errors, not submitting and not submitted |
| `Contact.ContactForm.HandleChange` | src/components/ContactForm.tsx:51-65 | sets only the named field; removes that field's error if it has one and leaves the map as it was if it has none; leaves both flags alone; keeps every shown error accurate |
| `Contact.ContactForm.HandleSubmit` | src/components/ContactForm.tsx:67-89 | a rejected form gets exactly the validator's errors with the flags and data unchanged; an accepted form starts submitting with data, errors and `isSubmitted` unchanged. If the errors were accurate beforehand, an accepted form shows none |
| `Contact.ContactForm.CompleteSubmission` | src/components/ContactForm.tsx:75-85 | the deferred step stops submitting, marks the form submitted and sets all five fields to "" |
| `Chat.Reply` | src/components/ChatWidget.tsx:63-96 | a throw, or a response with no first choice, takes the failure branch. Otherwise the reply is the first choice's content when non-empty, and the fallback text when that content is null or "". A reply is never empty |
| `Chat.TranscriptIdsArePositions` | src/components/ChatWidget.tsx:44-100 | after n sends the transcript has 2n+1 entries and every id equals its 1-based position |
| `Chat.TranscriptEntries` | src/components/ChatWidget.tsx:26-100 | entry 1 is the greeting from the bot with id 1; send j put the user's untrimmed text at position 2j+2 and the bot's reply or apology at 2j+3 |
| `Chat.TranscriptIsAppendOnly` | src/components/ChatWidget.tsx:53-96 | later sends never edit or remove transcript entries; the earlier transcript is a prefix of the later one |
| `Chat.HistoryIsAppendOnly` | src/components/ChatWidget.tsx:57-76 | later sends never edit or remove history turns; the earlier history is a prefix of the later one |
| `Chat.HistoryLength` | src/components/ChatWidget.tsx:33-76 | the history keeps the two seed turns first, and has one user turn per send plus one assistant turn per send that got a reply |
| `Chat.TranscriptAndHistoryStep` | src/components/ChatWidget.tsx:44-100 | one more send appends exactly its user message and bot message, numbered by position, and exactly its turns |
| `Chat.SuggestionsShownIff` | src/components/ChatWidget.tsx:192 | "fewer than 3 messages" holds exactly until the first send completes |
| `Chat.ChatWidget.constructor` | src/components/ChatWidget.tsx:25-36 | one bot message with id 1 and the greeting; the history is the system turn, then the assistant turn with the greeting; closed, not typing, input empty |
| `Chat.ChatWidget.BeginSend` | src/components/ChatWidget.tsx:47-61 | appends the user's message with id = old length + 1, clears the input and raises `isTyping`. It stores the history extended by the user's turn and returns exactly that history as the request |
| `Chat.ChatWidget.FinishSend` | src/components/ChatWidget.tsx:71-99 | on a reply it appends the assistant turn and a bot message with that text; on failure it appends only the apology message. The bot id is the new length. `isTyping` comes down on both paths |
| `Chat.ChatWidget.SendMessage` | src/components/ChatWidget.tsx:44-100 | blank text changes nothing and sends nothing. Otherwise one request goes out with old history + user turn, and the transcript grows by exactly the two messages. The history ends at +2 turns on a reply and +1 on a failure. The input is cleared, `isTyping` is false and the invariant holds |
| `Chat.ChatWidget.SubmitInput` | src/components/ChatWidget.tsx:102-105 | submitting the form sends the current input text, with the same effect as `SendMessage` |
| `Chat.ChatWidget.AskSampleQuestion` | src/components/ChatWidget.tsx:107-109 | a suggested question sends that question, and since none is blank a request always goes out |
| `Chat.ChatWidget.SetInput` | src/components/ChatWidget.tsx:213 | typing sets the input text and nothing else |
| `Chat.ChatWidget.Toggle` | src/components/ChatWidget.tsx:117 | the floating button flips `isOpen` and changes nothing else |
| `Chat.ChatWidget.Close` | src/components/ChatWidget.tsx:149 | the header's close button sets `isOpen` to false and changes nothing else |
| `Chat.ChatWidget.ShowSuggestions` | src/components/ChatWidget.tsx:192 | the frequently-asked-questions block is shown exactly while no send has completed |

`Chat.ExampleConversations` states four conversations as assertions that follow
from these contracts: a reply, a failed call, an all-white-space input and an
empty reply.

### Two behaviours of the code worth knowing

A failed call keeps the user's turn in the history. The turn is stored before
the call (ChatWidget.tsx:61) and the catch branch does not undo it, so after a
failure the history is one turn longer and the next request carries two user
turns in a row.

Nothing disables sending while a reply is pending. The send button is disabled
only on blank input (ChatWidget.tsx:220), and the suggestion chips never are
(ChatWidget.tsx:200).

## Left out

- The OpenAI/Groq client, its configuration and the HTTP call. They are a
  foreign library and the network, so the service is a parameter of the send.
  The fixed request settings are not modelled: model name, `max_tokens: 150`
  and `temperature: 0.7`. `console.error` on failure is not modelled either.
- Overlapping sends are not modelled. The handlers can start a second send
  while one is pending, and the id read from `messages.length` (ChatWidget.tsx:48)
  is then not safe. Sends are atomic and sequential in the model. `Valid()`
  therefore keeps `isTyping` false between sends, and `isTyping` is true only
  between `BeginSend` and `FinishSend`.
- Closing the panel during a pending request is not modelled. It would need
  overlapping steps, and the atomic send already applies the outcome whatever
  `isOpen` is.
- The auto-scroll effect (ChatWidget.tsx:38-42) is DOM output and is not
  modelled.
- The 1500 ms `setTimeout` (ContactForm.tsx:75) is not modelled as a timer. The
  callback is the separate step `CompleteSubmission`, which anyone may call.
- The browser's own checks are not modelled: `type="email"` constraint
  validation and the submit button disabled while submitting. Only the
  handlers are modelled.
- Rendering and animation are not modelled. This covers the framer-motion
  markup, the hero's random shapes and resize listener, the header's scroll
  geometry, the testimonials' scroll animation and the static sections.
- JavaScript strings are UTF-16 code units; the model's characters are Unicode
  scalar values. Every white-space character `trim` and `\s` know lies in the
  Basic Multilingual Plane, so no check here depends on the difference.
- `Contact.ContactForm.HandleSubmit`: keeps shown errors accurate only when
  they were accurate before the submit. `CompleteSubmission` keeps them
  accurate only when no error was shown. A submit during submitting, or a
  completion with errors still shown, can leave a stale message. The browser's
  disabled button normally prevents both.
