# Great AI chat widget — a Dafny model of its decision logic

The Great AI chat widget (`scripts/scripts.js`) is a browser front end. The
user types a message. The widget either answers it from a small offline
table or forwards it, with the recent conversation and a system prompt, to a
backend chat route. This project models the parts of the script that decide
what happens, leaving out the rendering:

- **Session memory** (`Session`): the ordered log of turns. `add` appends one
  turn, `getContext` hands out the last 20 turns, and `clear` empties the log.
  It is a class with a `seq<Turn>` field. `add` and `clear` are methods;
  `getContext` is a function that reads the log.
- **Personality prompt compiler** (`Personality`): a saved personality
  (preset, custom text, humor and empathy flags, formality) is turned into a
  system prompt. The prompt opens with a fixed identity sentence, adds the
  clauses that apply in a fixed order, and is trimmed. `CompilePrompt`
  follows the source's step-by-step growth of the prompt. It is proved equal to
  the function `GeneratePrompt`. That function is then proved equal to a second,
  clause-by-clause description (`Clauses`, `Texts`, `Spaced`), from which the
  order, presence and shape properties are derived.
- **Offline responder** (`Offline`): the input is lower-cased and the knowledge
  table is scanned in declaration order. The first key that occurs in the input
  picks the reply; otherwise a fixed default is returned. The loop
  `GetOfflineResponse` is proved against the function `OfflineReply`.
- **Dispatch** (`Chat`):
  - `sendMessage` ignores blank input.
  - Otherwise it logs the trimmed text as a user turn. Then exactly one bot
    turn follows: the offline reply, or the backend's answer from
    `processAPIRequest`.
  - The message list sent to the backend is the system message, then the
    context turns (`bot` becomes `assistant`, every other sender `user`), then
    the new text.
  - The quick-reply and shortcut buttons also go through `processAPIRequest`.
  - The save-personality button, the backend selector and `clearChat` are
    modelled as `ChatSession` methods too.
- **String primitives** (`Text`): JavaScript's `trim` (ECMAScript whitespace and
  line terminators), `toLowerCase` restricted to ASCII, and `includes`.

The widget's behaviour is reproduced as written, including these quirks:

- The user turn is logged before the request is built. So a typed message
  (or a quick reply) appears twice in the outgoing list: as the last context
  message and as the final message.
- The joke, quote and calculator buttons ask the backend without logging a
  user turn.
- The `slice(-50)` applied after `getContext` never changes anything. The
  effective window is 20 turns.

The script has no safety clause appended to prompts and does not reject
unknown presets (it skips them silently). Its window is 20 turns, not 50. It
does no arithmetic on messages and picks no reply at random.

The network answer is an abstract value: `Ok(choices)` with the message
content of each choice, or `Fail`.

## Model

| member | source | states |
|---|---|---|
| Text.Trim | scripts/scripts.js:75 | the trimmed text is empty exactly when the input is all whitespace, and otherwise starts and ends with a non-whitespace character |
| Text.TrimIsSlice | scripts/scripts.js:75 | `trim` keeps a contiguous slice of the input and removes only whitespace on both sides of it |
| Text.TrimIdempotent | scripts/scripts.js:50 | trimming an already trimmed string changes nothing |
| Text.TrimKeepsPrefix | scripts/scripts.js:50 | a text that starts and ends with non-whitespace survives trimming as a prefix, whatever follows it |
| Text.TrimDropsTrailingSpace | scripts/scripts.js:50 | trimming a text without outer whitespace plus one trailing space gives back the text |
| Text.ToLowerAscii | scripts/scripts.js:90 | lower-casing keeps the length and maps each character to its lower-case form (ASCII capitals only) |
| Text.ToLowerAsciiIdempotent | scripts/scripts.js:90 | after lower-casing no ASCII capital is left, so lower-casing twice equals lower-casing once |
| Session.SliceLast | scripts/scripts.js:22 | `slice(-n)` yields `min(n, length)` elements that form a contiguous suffix of the input, in order |
| Session.SliceLastTwice | scripts/scripts.js:102 | applying a wider window after a narrower one changes nothing |
| Session.SliceLastEndsWith | scripts/scripts.js:21-23 | the element last added is the last element of every window onto the log |
| Session.SessionMemory.constructor | scripts/scripts.js:17 | the log starts empty |
| Session.SessionMemory.Add | scripts/scripts.js:18-20 | exactly one turn with the given sender and content is appended at the end, and every earlier turn is unchanged |
| Session.SessionMemory.GetContext | scripts/scripts.js:21-23 | the context is the last `min(20, length)` turns, a contiguous suffix of the log in original order; reading it changes nothing |
| Session.SessionMemory.Clear | scripts/scripts.js:24-26 | the log is empty afterwards, whatever it held, so clearing twice is the same as clearing once |
| Personality.CompilePrompt | scripts/scripts.js:37-51 | growing the prompt clause by clause and trimming it yields the compiled prompt `GeneratePrompt` |
| Personality.UntrimmedIsSpacedClauses | scripts/scripts.js:38-49 | before trimming, the text is exactly the applicable clause texts in order, each followed by one space |
| Personality.PromptIsSpacedClauses | scripts/scripts.js:37-50 | the compiled prompt is the applicable clause texts in order, each followed by one space, trimmed |
| Personality.TextsOfClauses | scripts/scripts.js:38-49 | the clause texts are the identity sentence, then the preset text, custom text, humor, empathy and tone sentences, each when it applies |
| Personality.ClausesInOrder | scripts/scripts.js:38-49 | the clauses open with the identity sentence, and the rest come in the order preset, custom, humor, empathy, formality, each at most once |
| Personality.ClausePresence | scripts/scripts.js:39-49 | a preset clause appears iff its identifier is defined; custom text and tone appear iff non-empty; humor and empathy clauses appear iff the flag is exactly `false` |
| Personality.ClauseInPrompt | scripts/scripts.js:37-50 | every clause whose text ends in a non-whitespace character appears verbatim in the prompt, at the offset taken up by the clauses before it, so the prompt shows the clauses in order |
| Personality.SpacedTextSurvivesTrim | scripts/scripts.js:50 | a text ending in non-whitespace keeps its place in the space-separated list when the list is trimmed |
| Personality.PromptShape | scripts/scripts.js:38-50 | the prompt starts with "You are Great AI, developed by Evolutional Tech." and has no whitespace at either end |
| Personality.EmptySettingsPrompt | scripts/scripts.js:37-50 | with no field set, the prompt is the identity sentence alone |
| Personality.UnknownPresetAddsNothing | scripts/scripts.js:39-41 | a missing, empty or undefined preset gives the same prompt as no preset |
| Personality.AbsentToggleAddsNothing | scripts/scripts.js:45-46 | an absent humor or empathy flag gives the same prompt as `true` |
| Personality.CreativityIgnored | scripts/scripts.js:210 | the stored creativity value never changes the prompt |
| Offline.FirstMatchAt | scripts/scripts.js:91-93 | when entry `i` is the first whose key occurs in the text, the scan returns entry `i`'s reply |
| Offline.FirstMatchNone | scripts/scripts.js:91-94 | the scan finds nothing iff no key occurs in the text |
| Offline.GetOfflineResponse | scripts/scripts.js:89-95 | the loop returns the offline reply for the text |
| Offline.OfflineReplyFirstKeyWins | scripts/scripts.js:55-60 | the reply is the value of the first key, in declaration order, that occurs in the lower-cased input |
| Offline.OfflineReplyDefault | scripts/scripts.js:94 | when no key occurs in the lower-cased input, the reply is the fixed offline default |
| Offline.OfflineReplyIgnoresCase | scripts/scripts.js:90 | an input and its lower-cased form get the same reply |
| Offline.GreetingBeatsFarewell | scripts/scripts.js:56-59 | "Hello bye" contains two keys and gets the greeting, the key declared first |
| Offline.UnknownInputGetsDefault | scripts/scripts.js:94 | "Thanks" contains no key and gets the default |
| Chat.ContextMessages | scripts/scripts.js:110-113 | each context turn becomes one message, in order, with `bot` mapped to assistant, everything else to user, and the content kept |
| Chat.BuildMessages | scripts/scripts.js:104-115 | the list has `2 + |context|` messages: the system prompt (compiled or default) first, the mapped context turns, then the user's text last |
| Chat.RequestContextIsLastTwenty | scripts/scripts.js:102 | the `slice(-50)` after `getContext` changes nothing, so at most 20 context turns are sent |
| Chat.UserTextSentTwice | scripts/scripts.js:102-114 | with the user turn logged first, the typed text is both the last context message and the final message |
| Chat.ReplyOfCases | scripts/scripts.js:130-141 | the bot turn is the first choice's content when there is one, and the apology when the call fails or has no choice |
| Chat.SavedPersonalityClauses | scripts/scripts.js:199-216 | the presets tab with no selection, or an unknown tab, keeps the old personality; otherwise the saved personality's clause list is exactly that of the active tab's inputs: the selected card's preset when defined (a card without an identifier leaves the identity sentence alone), the non-empty custom text, or the humor, empathy and tone clauses of the unchecked toggles and chosen formality |
| Chat.ChatSession.constructor | scripts/scripts.js:12-13 | the widget starts with an empty log, the remote backend selected and no personality |
| Chat.ChatSession.AddMessage | scripts/scripts.js:63-71 | showing a message logs exactly one turn with its sender and content |
| Chat.ChatSession.SendMessage | scripts/scripts.js:73-87 | whitespace-only input changes nothing; otherwise the trimmed text is logged, then one bot turn (offline reply, first choice or apology); in remote mode the request is built from the log including the new user turn |
| Chat.ChatSession.ProcessAPIRequest | scripts/scripts.js:98-142 | the request is built from the personality and the last 20 turns, and exactly one bot turn is logged: the first choice or the apology |
| Chat.ChatSession.QuickReply | scripts/scripts.js:183-186 | a quick reply logs the option as a user turn and then asks the backend, which adds one bot turn |
| Chat.ChatSession.PressShortcut | scripts/scripts.js:246-248 | a shortcut button asks the backend with its fixed text without logging a user turn |
| Chat.ChatSession.SavePersonality | scripts/scripts.js:199-220 | the stored personality becomes the tab's selection, the backend choice is unchanged, and one "Personality updated ✅" bot turn is logged in every case |
| Chat.ChatSession.SelectApi | scripts/scripts.js:249-251 | the selector sets the current backend and nothing else |
| Chat.ChatSession.ClearChat | scripts/scripts.js:145-148 | clearing the chat empties the log |

## Left out

- Rendering is not modelled: creating message bubbles, scrolling, the typing
  indicator, the quick-reply buttons, the modals, the tab and preset-card
  handlers, and the button bindings. Only their effect on the log and the
  globals is modelled.
- `fetch`, the JSON request body, the model name and `response.json()` are
  network I/O. The answer is the parameter `response`, and the request is
  returned as the message list only.
- The abstraction of the answer does not capture two cases. A first choice
  without a `message` field makes the script throw and apologise. A non-string
  `content` is passed on as is.
- Overlapping asynchronous `processAPIRequest` calls are concurrency. Each
  dispatch is modelled as one sequential step.
- Timestamps (`new Date()`) are not modelled, and neither is `saveChat`
  (locale-dependent time formatting and a browser download). Turns keep only
  the sender and the content.
- `console.error` logging is not modelled.
- Text.ToLowerAscii: lower-cases ASCII letters only. JavaScript's
  `toLowerCase` also maps non-ASCII capitals.
- Personality.PresetKnown: looks up only the four presets. It does not model
  JavaScript's lookup of names inherited by every object, such as
  `constructor`.
- Session.SliceLast: requires a positive window. `slice(-0)` would return the
  whole array, but the script only uses windows of 20 and 50.
- Sender values are strings. Only `"user"` and `"bot"` occur in the script.
