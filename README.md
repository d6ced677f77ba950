# Conversation state of the AI text-processing chat view

This project models the state handling of `TextProcessing`, the chat-style React view of a browser
front end. A user types a text. The view detects the text's language, and can translate or summarize
any message, through the browser's built-in AI objects.

The view keeps these pieces of state:
- an ordered log of messages, each with an id, its text, a `pending` flag, the detected language,
  an optional summary, and translations keyed by language code;
- the input box (`inputText`);
- the `isProcessing` flag;
- a single error banner (`error`);
- a per-message dropdown flag (`showDropdown`).

The model has these parts:
- `Messages` holds the message record, the language table and its display-name lookup, `find` by id,
  and the `map`-by-id rewrites the handlers pass to `setMessages`. It also holds the invariant the log
  keeps: unique ids, non-blank texts, and a language on every settled message.
- `Providers` holds the three asynchronous helpers, `detectLanguage`, `translateText` and
  `summarizeText`. The browser's detector, translator and summarizer are function parameters, from
  their inputs to what they answered. So the model records which text and which source language each
  one is given.
- `TextProcessing.Component` is a class whose fields are the view's state hooks. Its methods are the
  handlers, written step by step as the source runs them, and each is proved against the pure
  functions above.
- `JsString` holds JavaScript's `trim` and its UTF-16 `length`.
- `Scenarios` drives short sessions through the handlers' contracts.

The model follows the code in several places where one might expect otherwise:
- No handler rejects a call while another is in flight. Only the `disabled` attributes of the
  buttons, the dropdown and the text box do that.
- A failed detection returns early, so its message stays `pending` forever. Several pending messages
  can therefore coexist, as `Scenarios.FailedDetectionsStayPending` shows.
- A summarizer that reports `available === 'no'` resolves to `""`. During a send, that empty string is
  stored as the summary.
- A summarizer that throws during a send leaves the message pending, and the banner says
  "An error occurred. Please try again.".
- Translation keys are whatever `targetLang` the handler is given. Only the dropdown limits them to
  the six codes of the language table.

## Model

| member | source | states |
|---|---|---|
| `JsString.Trim` | src/components/TextProcessing.jsx:121 | `trim` gives "" exactly when every character is white space; otherwise the result starts and ends with a non-white character; a text without white ends is returned unchanged |
| `JsString.TrimRemovesWhiteEnds` | src/components/TextProcessing.jsx:121 | `trim` returns a slice of its input, and everything it drops before and after that slice is white space |
| `JsString.IsBlank` | src/components/TextProcessing.jsx:121 | `!s.trim()` holds exactly when every character of the text is white space (the same test guards lines 32, 55 and 76) |
| `JsString.Utf16Length` | src/components/TextProcessing.jsx:159 | `length` is 1 for a character inside the Basic Multilingual Plane and 2 for one outside it; for any text it lies between the character count and twice that, equals the character count when every character is inside the plane and twice it when every character is outside |
| `JsString.Utf16LengthAppend` | src/components/TextProcessing.jsx:159 | the `length` of a concatenation is the sum of the lengths, so with the one-character values it fixes the length of every text |
| `TextProcessing.AutoSummarizes` | src/components/TextProcessing.jsx:159 | the auto-summary test holds only for code 'en' and a text of more than 75 characters; for text inside the Basic Multilingual Plane it holds iff the code is 'en' and the text has more than 150 characters |
| `Messages.SupportedLanguages` | src/components/TextProcessing.jsx:5-12 | the language table holds exactly en, es, fr, pt, ru and tr, each with a non-empty name that is its display name |
| `Messages.DisplayName` | src/components/TextProcessing.jsx:43 | the display name is the table's entry for a supported code and the raw code otherwise; it is empty only for the empty code |
| `Messages.SourceLanguage` | src/components/TextProcessing.jsx:188 | the source language is never empty: the detected code when there is a non-empty one, 'auto' when there is no detected language or its code is empty |
| `Messages.Find` | src/components/TextProcessing.jsx:178 | `find` comes back empty exactly when no message has the id; otherwise it returns the first message of the log that has the id |
| `Messages.PendingMessage` | src/components/TextProcessing.jsx:132-141 | the appended record carries the id and the input text, is pending, and has no language, summary or translation yet |
| `Messages.FindUnique` | src/components/TextProcessing.jsx:178 | with unique ids, `find` returns exactly the message that carries the id |
| `Messages.MapById` | src/components/TextProcessing.jsx:192-204 | a `map` by id keeps the log's length and order, rewrites every message with the id and leaves every other message as it was |
| `Messages.FindAfterMap` | src/components/TextProcessing.jsx:192-204 | after an id-preserving rewrite by id, `find` on that id yields the rewritten first match, and nothing if there was none |
| `Messages.ReplaceById` | src/components/TextProcessing.jsx:165-167 | replacing by id keeps the log's length, puts the settled record at every position with the id and keeps every other message |
| `Messages.AddTranslation` | src/components/TextProcessing.jsx:192-204 | on each message with the id, the target language is added or overwritten with the new text, every other language keeps its text, and the rest of the message is unchanged; every other message is kept |
| `Messages.SetSummary` | src/components/TextProcessing.jsx:231-240 | each message with the id gets the new summary and is otherwise unchanged; every other message is kept |
| `Messages.ReplaceByIdAt` | src/components/TextProcessing.jsx:165-167 | with unique ids, replacing by id changes exactly the one position that holds the id |
| `Messages.TranslationOverwrites` | src/components/TextProcessing.jsx:197-200 | translating twice into the same language equals translating once with the second text |
| `Messages.TranslationReadBack` | src/components/TextProcessing.jsx:192-204 | after a translation the message holds the new text under that language, keeps every other language's text, gains only that key, and is otherwise unchanged |
| `Messages.SummaryReadBack` | src/components/TextProcessing.jsx:231-240 | after a summary update the message found by the id is the old one with only its summary replaced |
| `Messages.TranslationKeepsCore` | src/components/TextProcessing.jsx:192-204 | storing a translation changes no message's id, text, pending flag or language |
| `Messages.SummaryKeepsCore` | src/components/TextProcessing.jsx:231-240 | storing a summary changes no message's id, text, pending flag or language |
| `Messages.SameCoreKeepsWellFormed` | src/components/TextProcessing.jsx:309-311 | changing only summaries and translations keeps ids unique, texts non-blank and a language on every settled message (the metadata line reads it), and is an allowed evolution of the log |
| `Messages.AppendKeepsWellFormed` | src/components/TextProcessing.jsx:131-141 | appending a pending message with a fresh id and a non-blank text keeps the log well formed and leaves every earlier message in place |
| `Messages.SettleLastKeepsWellFormed` | src/components/TextProcessing.jsx:149-167 | settling the just-appended message by id rewrites the last position only and keeps the log well formed |
| `Messages.Toggled` | src/components/TextProcessing.jsx:329 | the toggle flips the visibility of that message's dropdown (a missing entry counts as hidden) and of no other |
| `Messages.Hidden` | src/components/TextProcessing.jsx:207 | after a translation that message's dropdown is hidden and every other keeps its visibility |
| `Messages.ToggleTwice` | src/components/TextProcessing.jsx:329 | toggling the same dropdown twice restores every message's visibility |
| `Providers.Detected` | src/components/TextProcessing.jsx:41-45 | the stored language keeps the detector's code and confidence; its name is the table's name for a supported code and the raw code otherwise |
| `Providers.DetectLanguage` | src/components/TextProcessing.jsx:31-51 | a blank text is refused with the empty-input banner before the detector is asked; otherwise the helper yields a language exactly when the detector answers, and null with the detection banner when it fails |
| `Providers.TranslateText` | src/components/TextProcessing.jsx:54-72 | a blank text yields "" with the empty-input banner; otherwise the translator is asked with the source (or 'auto' when the source is empty); the call throws exactly when it fails, with the translation banner, and otherwise returns the translator's text without a banner |
| `Providers.SummarizeText` | src/components/TextProcessing.jsx:75-117 | a blank text or an unavailable summarizer yields "" with its banner; otherwise the call throws exactly when the summarizer fails, with the summary banner, and returns the summary without a banner otherwise |
| `TextProcessing.Component.constructor` | src/components/TextProcessing.jsx:15-21 | the view starts with an empty log, an empty input, no banner, no dropdown open and nothing in flight |
| `TextProcessing.Component.EditInput` | src/components/TextProcessing.jsx:384 | typing replaces the input text and nothing else |
| `TextProcessing.Component.DismissError` | src/components/TextProcessing.jsx:290 | Dismiss clears the banner and nothing else |
| `TextProcessing.Component.ToggleDropdown` | src/components/TextProcessing.jsx:329 | the Translate button flips that message's dropdown and no other |
| `TextProcessing.Component.SendMessage` | src/components/TextProcessing.jsx:120-174 | blank input: only the banner changes, to the empty-input text. Otherwise exactly one message is appended after the untouched earlier ones, with the fresh id and the input text, and the input is cleared. It settles iff detection succeeds and no auto summary threw; settled, it carries the detected language, no translation, and a summary iff the code is 'en' and the length exceeds 150; pending, it is exactly the appended record. The banner says which of these happened; nothing is in flight afterwards and the log stays well formed |
| `TextProcessing.Component.Translate` | src/components/TextProcessing.jsx:177-214 | no message with the id, or empty text: only the banner changes, to the no-text text. Otherwise the translator is asked for the found message's text from its source language into the target; on success exactly that language key of that message is set to its answer and that dropdown hidden, on failure no message or dropdown changes and the banner says so. No id, text, pending flag or language changes |
| `TextProcessing.Component.Summarize` | src/components/TextProcessing.jsx:217-247 | no message with the id, or empty text: only the banner changes. Otherwise the summarizer's answer overwrites that message's summary ("" with its banner when unavailable); on failure no message changes and the banner says so. No id, text, pending flag or language changes |
| `Scenarios.FailedDetectionsStayPending` | src/components/TextProcessing.jsx:145-146 | two sends whose detection fails leave two messages pending at once |
| `Scenarios.RetranslationKeepsLast` | src/components/TextProcessing.jsx:192-204 | translating a message into French twice leaves only the second French text |
| `Scenarios.AutoSummaryIsEnglishOnly` | src/components/TextProcessing.jsx:158-162 | a 151-character text is summarized on sending when detected as English and not when detected as Spanish |
| `Scenarios.AstralTextCountsDouble` | src/components/TextProcessing.jsx:159 | an English text of 76 emoji is 152 UTF-16 units long and is therefore summarized on sending |

## Left out

- src/components/LandingPage.jsx, src/App.jsx and tailwind.config.js are not part of this model. They hold marketing markup, routes and styling, with no state logic.
- The browser's `languageDetector`, `translator` and `summarizer` objects are function parameters. Their behaviour, the summarizer's options and context string, its download-progress listener and its readiness wait are not modelled.
- Each handler runs to completion as one method call. Interleaving of awaits between handlers is not modelled, so `isProcessing` is raised and cleared within a call. The `disabled` attributes that keep the user from starting a second action are rendering and are not modelled.
- TextProcessing.Component.SendMessage: requires that `freshId` is not already an id in the log. The source takes `Date.now()` and does not check uniqueness. With a repeated id, the settle step would rewrite every message with that id.
- The `timestamp` and `type: 'user'` fields of a message are not modelled. Neither are `new Date()` and the clock.
- The detector's confidence is carried as a real number. Its percentage formatting with `toFixed` is floating-point display and is not modelled.
- Messages.DisplayName: looks up only the six own keys of the language table. A JavaScript lookup of an inherited key such as `constructor` would yield a function instead of the raw code.
- Strings are sequences of Unicode scalar values. A lone UTF-16 surrogate cannot be represented. `length` is modelled by counting characters outside the Basic Multilingual Plane twice.
- Auto-scrolling, console logging, the dark-mode toggle, theme classes and the never-changed `targetLanguage` value are not modelled. Neither is the rendering rule that shows the Summarize button only for a message that already has a non-empty summary (line 318).
