# Gemini chat widget: client-side model

This project models the browser script of a small chat page that talks to a
Gemini-backed endpoint (`public/script.js`). It covers four parts:

- **The submit handler.** It trims the input and ignores blank input. It
  pushes the user's turn onto the client-side conversation history, shows
  that turn and a "thinking" placeholder, and sends the whole history. Then
  it settles the placeholder:
  - A non-ok status pops the user turn and shows an error text.
  - An exception pops the user turn and shows the generic failure text.
  - A non-empty `result` pushes a model turn and shows it.
  - An empty `result` shows "Sorry, no response received." and keeps the
    user turn.
- **The error message chosen for a non-ok response.**
- **The bubble rule of `appendMessage`.** It sets the side and style by
  sender. A bot message whose lower-cased text contains `thinking` shows
  the typing animation.
- **The light/dark theme.** This covers the preference applied by
  `detectColorScheme` (and by its `change` listener) and the click handler
  of the theme toggle.

Modules:

- `Wrappers`: `Option`.
- `JsString`: the parts of JavaScript string semantics the script relies on:
  - `String.prototype.trim` over the ECMAScript white-space and
    line-terminator code points.
  - `toLowerCase` and `includes`.
  - the decimal rendering of a status code in a template literal.
- `Render`: the chat box as a sequence of bubbles (class `ChatBox`).
- `Chat`: the history and the handler (class `ChatSession`), with a
  function-level specification (`Resolve`, `AfterSubmit`, `Run`) and
  lemmas over it.
- `Theme`: elements with attributes and class lists, and the two theme
  procedures.

## Model

| member | source | states |
|---|---|---|
| Chat.ChatSession.Submit | public/script.js:128-147 | Blank (trimmed-empty) input: no request, input and bubbles unchanged. Otherwise the request is the old history plus exactly one user turn holding the trimmed input, the input is cleared, and the box gains the user bubble plus the settled placeholder. The new history is `AfterSubmit` of the old one. |
| Chat.ChatSession.constructor | public/script.js:62 | At page load the history is empty and the input is blank. |
| Chat.ChatSession.Settle | public/script.js:148-198 | The placeholder becomes the rendered shown text. A failure (network error, non-ok status, unreadable or `null` success body) pops the last turn. A truthy reply appends a model turn with it. An empty reply leaves the history as it is. |
| Chat.ErrorMessageRule | public/script.js:158-170 | The error text is never empty. It is the server's `error` when that is truthy. Otherwise it starts with "Failed to get response from server.", and equals it exactly when the body is JSON. |
| Chat.StatusReadBack | public/script.js:167-170 | For a non-JSON error body the text is the generic text, " Status: ", then digits that read back as the status. |
| Chat.ResolveRule | public/script.js:148-198 | A submission fails iff fetch rejects, the status is not ok, or the success body is not JSON or is `null`. It is replied iff the status is ok and `result` is truthy, and the reply is that result. A non-ok status fails with the error text. |
| Chat.BlankInputIgnored | public/script.js:131-132 | Input that is all white space leaves the history unchanged. |
| Chat.HttpErrorRestoresHistory | public/script.js:159-175 | A non-ok response leaves the history as it was before the submission (push then pop). |
| Chat.ExceptionRestoresHistory | public/script.js:192-197 | A rejected fetch or an unreadable or `null` success body leaves the history unchanged and shows the generic failure text. |
| Chat.ReplyAddsTwoTurns | public/script.js:182-186 | A truthy reply extends the history by exactly the user turn and the model turn, in that order (+2). |
| Chat.EmptyReplyKeepsUserTurn | public/script.js:187-190 | A falsy `result` keeps the user turn, adds no model turn, and shows "Sorry, no response received.". |
| Chat.PushKeepsWellFormed | public/script.js:142-186 | Pushing a non-empty user turn with non-blank ends, or a model turn right after a user turn, keeps every model turn preceded by a user turn. |
| Chat.AfterSubmitKeepsWellFormed | public/script.js:128-199 | One submission keeps the history well formed: non-empty contents, trimmed user turns, each model turn right after a user turn. |
| Chat.RunKeepsWellFormed | public/script.js:128-199 | Any sequence of submissions keeps the history well formed. |
| Chat.AlternationCanBreak | public/script.js:187-190 | Two submissions that both get an empty `result` leave two consecutive user turns, so strict user/model alternation is not an invariant. |
| Render.AppendMessageRule | public/script.js:70-91 | The bubble is at the end and user-styled iff the sender is `user`. It shows the typing animation iff the sender is `bot` and the lower-cased text contains `thinking`. Otherwise it shows the text verbatim. |
| Render.PlaceholderIsTyping | public/script.js:146 | The placeholder message `thinking` from the bot is a start-side bot bubble with the typing animation. |
| Render.TypingIgnoresCase | public/script.js:85 | Lower-casing the text first does not change the bubble's content kind. |
| Render.LowerIdempotent | public/script.js:85 | Lower-casing twice is lower-casing once. |
| Render.ChatBox.AppendMessage | public/script.js:70-104 | Appends exactly the bubble of the rule and returns a handle to it. |
| Render.ChatBox.UpdateThinkingMessage | public/script.js:113-117 | Replaces only the handled bubble's content with the rendered new text. |
| JsString.TrimStartSpec | public/script.js:131 | Leading trim removes a white-space prefix and leaves a suffix that does not start with white space. |
| JsString.TrimEndSpec | public/script.js:131 | Trailing trim removes a white-space suffix and leaves a prefix that does not end with white space. |
| JsString.TrimSpec | public/script.js:131-132 | `trim` yields an infix with only white space around it and no white space at its ends. It is empty iff the input is all white space. |
| JsString.TrimUnique | public/script.js:131 | Any infix with white space around it and non-white-space ends is the trim. |
| JsString.NumberToString | public/script.js:169 | The decimal rendering of a status is non-empty, all digits, and has no leading zero unless it is `0`. |
| JsString.DecimalRoundTrip | public/script.js:169 | Reading the rendered digits back gives the number. |
| Theme.ApplyColorScheme | public/script.js:2-36 | Sets `data-theme` to the preferred theme and adds or removes `dark` accordingly. When the icon exists it swaps moon for sun (dark) or sun for moon (light). |
| Theme.Toggle | public/script.js:40-56 | Switches to dark from `light` and to light from anything else, including no attribute. Keeps the `dark` class in step, swaps the icon, and throws exactly when there is no icon. |
| Theme.IconMatchesTheme | public/script.js:7-18 | An icon showing the sun or the moon shows exactly the one matching the theme afterwards. Its other classes are kept. |
| Theme.ToggleFlips | public/script.js:46-54 | From light or dark, one toggle changes the theme and two toggles restore it. |
| Theme.ToggleAfterPreference | public/script.js:46-54 | Toggling right after the preference was applied yields the opposite theme. |

## Left out

- The network exchange (`fetch`, `JSON.stringify`, `response.json()`) is abstracted into an `Outcome`: a rejection, or a status with a body classified as not JSON, `null`, or a JSON value whose read property is a string or absent.
- Chat.Body: a JSON `error` or `result` that is a truthy non-string (a number, an object) is not modelled; such a value is passed to `marked.parse`, which is outside the model. marked rejects non-string input by throwing, which would take the catch path (generic text shown, user turn popped) instead of the path the model follows for a string.
- `marked.parse` is not interpreted: a settled bubble holds `Markdown(text)`, and `marked.parse` is assumed never to throw on a string.
- JsString.Lower: lower-cases `A`-`Z` and U+212A KELVIN SIGN (whose lower case is `k`) only; the other Unicode case mappings are left out because none of them yields a letter of `thinking` in a place where it could complete the word (U+0130 lowers to `i` followed by a combining dot, never by `n`).
- Strings are sequences of code points; UTF-16 surrogate pairs are not modelled.
- The welcome banner removal, avatars, chat header text, scrolling, and the `centered` class are presentation only and are left out.
- `console.error` logging is left out.
- Concurrent submissions (a second submit while the first awaits) are not modelled: each submission settles before the next starts, so a pop always removes the turn its own submission pushed.
- Event wiring (`DOMContentLoaded`, `addEventListener`, `matchMedia`) is left out; the preference is a parameter, and the `change` listener runs the same body as `ApplyColorScheme`.
- Chat.ChatSession.Submit: the part after the request is sent is its own method, `Settle`, called at the end of `Submit`.
- Strict alternation of user and model turns is not an invariant of this code (an empty reply keeps the user turn); the model proves the weaker well-formedness instead and exhibits the break in `Chat.AlternationCanBreak`.
