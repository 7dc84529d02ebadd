# simplechatter, modelled in Dafny

simplechatter is a small interactive debugger for chat-completion HTTP
endpoints. It reads lines from a console. Each line is either a command
(`/quit`, `/show`, `/clear`, `/mode NAME`) or an input, and how an input is
read depends on the current mode:

- in `user`, `assistant` and `system` mode the line becomes one message with
  that role;
- in `json` mode the line is a JSON message object or a list of them;
- in `raw` mode the line is the whole request body.

In the message modes the program appends the new messages to its history.
It then posts a request carrying the whole history and appends the
assistant's answer when the server returns one.

The project models the part of the program that decides things:

- `payload.dfy` (`Payloads`): the request body builder, with required
  fields, optional fields and extra fields that override.
- `decoders.dfy` (`Decoders`): three decoders.
  - The extra-parameters startup option.
  - A json-mode message.
  - The assistant's content in a response.
- `session.dfy` (`ChatSession`): the session.
  - `Turn` states what one line does to the mode and the history, and what
    it sends.
  - `Loop` states the whole run over a queued initial input, the console
    lines and the server's replies.
  - The class `Session` holds `mode`, `history` and `pending` as fields.
    Its `Step` and `Run` methods update them in place, the way the
    program's loop does, and are proved against `Turn` and `Loop`.
- `scenarios.dfy` (`Scenarios`): concrete turns, as lemmas: a user line
  answered with "hello", a json-mode system message, a raw body answered by
  500, a 200 reply without choices, and /mode with each mode's name or in
  capitals between spaces.
- `text.dfy` (`Text`): the Python string operations involved:
  - `str.strip` with Python's whitespace set;
  - `str.lower` on ASCII;
  - `str.startswith`.
- `json.dfy` (`JsonValues`): decoded JSON values and messages.
- `wrappers.dfy` (`Wrappers`): `Option` and `Result`.

JSON text decoding (`json.loads`) is a parameter `loads: string ->
Option<Json>`. Every member that decodes takes it and holds for every
decoder. The HTTP call is also a parameter, a `Reply`: a status with a body,
or `TransportError` for a failure the program does not catch. `Loop` and
`Run` take the sequence of replies the server gives, in order.

The loop lemmas are stated for any turn function (`TurnFn`). They are then
instantiated for the program's own turn, `SessionTurn`, through the
single-turn facts `TurnChanges` and `TurnRaw`.

Since `split(maxsplit=1)` and `strip()` use the same whitespace set, the
`/mode` argument `text.split(maxsplit=1)[1].strip()` is the stripped text
after `"/mode "`. `ModeArgument` writes it that way.

## Model

| member | source | states |
|---|---|---|
| Text.Strip | simplechatter.py:167 | the result is no longer than the text, and neither end of it is whitespace |
| Text.StripIsSlice | simplechatter.py:172 | the stripped line is a contiguous piece of the line with only whitespace removed before and after it |
| Text.StripEmpty | simplechatter.py:180-181 | a line strips to nothing exactly when every character is whitespace, so exactly such lines are skipped |
| Text.StripSurrounded | simplechatter.py:167 | stripping a text that does not start or end with whitespace, after any whitespace has been added around it, gives the text back: strip removes the surrounding whitespace and nothing else |
| Text.StripUnpadded | simplechatter.py:172 | a text with no whitespace at either end is its own strip |
| Text.StripVisibleEnds | simplechatter.py:172 | a text that starts and ends with a visible ASCII character is its own strip |
| Text.VisibleNotSpace | simplechatter.py:172 | the visible ASCII characters are not whitespace for strip |
| Text.LowerChar | simplechatter.py:193 | the result is no ASCII capital and is the same character as the input up to ASCII case; these two facts determine it |
| Text.Lower | simplechatter.py:193 | lower-casing keeps the length, and every character of the result is no capital and the same up to case as the input's character there |
| Text.LowerUnchanged | simplechatter.py:193 | a text without ASCII capitals is unchanged by lower-casing |
| Text.LowerIdempotent | simplechatter.py:193 | lower-casing a lower-cased text changes nothing |
| Text.LowerIgnoresCase | simplechatter.py:193 | two texts lower-case to the same text exactly when they are the same up to ASCII case, character by character, which is why the /mode argument is matched without regard to case |
| Text.StartsWith | simplechatter.py:192 | no contract of its own: Python's startswith; NoSlashNoCommand, TurnCommands and CapitalsLineStrips state what the /mode test accepts |
| JsonValues.MessagesJson | simplechatter.py:111 | the history is sent as a JSON array with one object per message, in the history's order |
| JsonValues.MessagesJsonInjective | simplechatter.py:111 | the array sent determines the history it was built from: different histories are never sent as the same array |
| Decoders.ParseExtraParams | simplechatter.py:63-72 | no option or an empty one gives no extra fields; otherwise the result is success exactly when the text decodes to an object, and then it is that object's fields; a failure says "not JSON" exactly when the text does not decode |
| Decoders.JsonMessages | simplechatter.py:75-88 | no contract of its own: the specification of parse_json_message; JsonMessagesExactly characterises what it accepts and ParseJsonMessage is proved equal to it |
| Decoders.JsonMessagesExactly | simplechatter.py:75-88 | a json-mode text yields a message list exactly when it decodes to that list as a JSON array, or to its single object, and every message has "role" and "content" |
| Decoders.ParseJsonMessage | simplechatter.py:75-88 | the item-by-item loop returns what JsonMessages specifies: the object as a one-element list, all list items in order, or the matching error (not JSON, object lacking a key, bad item, neither object nor list) |
| Decoders.FirstChoiceContent | simplechatter.py:94 | no contract of its own: the lookup of choices[0].message.content, absent wherever Python's lookup raises; ExtractAssistantText and ExtractExactly state its use |
| Decoders.ExtractAssistantText | simplechatter.py:91-96 | the result is never a JSON null; an undecodable body gives absent; a present result is the value at choices[0].message.content |
| Decoders.ExtractExactly | simplechatter.py:91-96 | extraction gives `content` exactly when the body decodes to a response whose first choice's message carries `content` and `content` is not null |
| Decoders.Completion | simplechatter.py:94 | the canonical one-choice response carries its content where extraction looks |
| Payloads.HasEffort | simplechatter.py:118 | no contract of its own: Python's truthiness of an optional string (set and non-empty); BuildPayload's contract states when reasoning_effort appears through it |
| Payloads.BuildPayload | simplechatter.py:99-121 | the key set is the five required keys, plus top_k when given, plus reasoning_effort when non-empty, plus the extra keys; every extra key carries the extra value; each computed field has its computed value unless an extra key of that name overrides it |
| Payloads.ExtraMaxTokensWins | simplechatter.py:109-120 | an extra "max_tokens" of 9 wins over max_tokens 512, the model field stays, and no optional field appears |
| ChatSession.ModeNamed | simplechatter.py:194-197 | a name selects a mode exactly when it is one of user, assistant, system, json, raw or none; the selected mode's name is the name, with none read as raw |
| ChatSession.ModeNamedRoundTrip | simplechatter.py:196-197 | every mode is selected by its own name |
| ChatSession.ModeArgument | simplechatter.py:193 | no contract of its own: the stripped, lower-cased text after "/mode "; TurnCommands, ModeCommandSelects and CapitalsArgumentIsUser state how it selects a mode |
| ChatSession.NameIsLowerCase | simplechatter.py:193 | the mode names are already lower case, so lower-casing them changes nothing |
| ChatSession.NoSlashNoCommand | simplechatter.py:180-192 | a non-empty line that does not start with a slash is neither blank nor a command |
| ChatSession.IsCommand | simplechatter.py:180-192 | no contract of its own: the lines handled before the mode is looked at; NoSlashNoCommand, TurnCommands, TurnRaw and TurnMessages state what each kind does |
| ChatSession.RoleMessage | simplechatter.py:218 | no contract of its own: the message {role, content}; TurnMessages, AssistantReply and the scenarios state where it is appended |
| ChatSession.Interpret | simplechatter.py:210-218 | no contract of its own: the messages a non-raw line adds; TurnMessages states how the history and the request follow from it |
| ChatSession.AssistantReply | simplechatter.py:236-239 | at most one message is added; one is added exactly when the status is 2xx and extraction gives a content; it is the assistant message holding that content, which is not null |
| ChatSession.PayloadFor | simplechatter.py:221-230 | the request body of a message mode is a JSON object |
| ChatSession.Turn | simplechatter.py:180-239 | no contract of its own: one pass of the loop body after a line is read; TurnCommands, TurnChanges, TurnRaw and TurnMessages state its properties and Session.Step is proved equal to it |
| ChatSession.TurnCommands | simplechatter.py:180-201 | blank lines and commands send nothing; a blank line, /show and /quit change nothing (and /show shows the history); /clear empties the history whatever it held; /mode sets the selected mode, or keeps the mode and reports the argument when it selects none, and keeps the history either way |
| ChatSession.TurnChanges | simplechatter.py:180-239 | only a ModeSet outcome changes the mode; only /clear and a sending turn change the history; unless the line is /clear, the old history stays at the front of the new one |
| ChatSession.TurnRaw | simplechatter.py:203-208 | in raw mode a non-command line never changes the mode or the history; an undecodable line sends nothing; a decodable one is sent as the body itself, whatever the reply |
| ChatSession.TurnMessages | simplechatter.py:209-239 | in a message mode a refused json input changes nothing and sends nothing; otherwise the new history is the old one, then the new messages in order, then at most the assistant's answer; the request carries the whole history up to the new messages, and its "messages" field is exactly that history unless an extra field overrides it |
| ChatSession.Loop | simplechatter.py:163-179 | a run yields at most one outcome per line it can read (the queued input and the console lines) |
| ChatSession.LoopUnfold | simplechatter.py:165-179 | a run is its first turn, on the queued input if any and then on the next console line, followed by the rest of the run unless that turn ended it |
| ChatSession.LoopStopsAtFirstEnd | simplechatter.py:183-184 | a run stops at its first /quit or failed connection: no earlier outcome ends the loop, and the run ends for /quit or for a failed connection exactly when its last outcome is that one |
| ChatSession.EveryLineRest | simplechatter.py:166-172 | once the next line is taken, what holds of every line still holds of those left |
| ChatSession.SessionTurnKeepsHistory | simplechatter.py:180-239 | the program's turn keeps the old history at the front of the new one unless the line is /clear |
| ChatSession.SessionTurnRawKeepsConversation | simplechatter.py:203-208 | in raw mode, the program's turn keeps mode and history unless the line is /clear or /mode |
| ChatSession.HistoryOnlyGrows | simplechatter.py:165-239 | for any turn that keeps history, a run without /clear keeps its starting history at the front of its final history |
| ChatSession.RawRunKeepsHistory | simplechatter.py:203-208 | for any turn that keeps raw-mode state, a raw-mode run without /clear or /mode ends in raw mode with its starting history |
| ChatSession.SessionHistoryOnlyGrows | simplechatter.py:165-239 | the program's session, run without /clear, only ever adds to its history at the end |
| ChatSession.SessionRawRunKeepsHistory | simplechatter.py:203-208 | the program's session in raw mode, run without /clear or /mode, leaves the history untouched whatever the server answers |
| ChatSession.Session.constructor | simplechatter.py:155-163 | a new session is in user mode with an empty history and the initial input queued |
| ChatSession.Session.Step | simplechatter.py:180-239 | one loop body, updating the mode and history fields in place, leaves exactly the state and outcome `Turn` gives for the old state |
| ChatSession.Session.StepBy | simplechatter.py:180-239 | Step, stated through any turn function that agrees with `Turn`; a sent outcome carries the reply passed in |
| ChatSession.Session.Run | simplechatter.py:165-239 | the loop over the fields ends in the state, with the outcomes and for the reason `Loop` gives for the starting state, queued input, console and replies; the queued input is used up |
| ChatSession.Session.RunBy | simplechatter.py:165-239 | Run, stated through any turn function that agrees with `Turn` |
| Scenarios.UserHiGetsHello | simplechatter.py:217-239 | in user mode, "hi" answered by 200 with a first choice "hello" leaves the history user "hi" then assistant "hello" |
| Scenarios.JsonSystemMessage | simplechatter.py:211-220 | in json mode, a one-item list holding a system message appends exactly that message before whatever the reply adds |
| Scenarios.RawServerError | simplechatter.py:203-208 | in raw mode, a decodable body answered by 500 is sent unchanged and the history and mode stay as they were |
| Scenarios.EmptyReplyAddsNothing | simplechatter.py:236-239 | a 200 reply whose body has no choices adds nothing: only the user's message is in the history |
| Scenarios.ModeCommandSelects | simplechatter.py:192-201 | "/mode" followed by any mode's name selects that mode and changes nothing else |
| Scenarios.ModeCommandInCapitals | simplechatter.py:192-198 | "  /mode   USER " selects user mode and changes nothing else |
| Scenarios.CapitalsLineStrips | simplechatter.py:172 | that line strips to "/mode   USER", which the /mode test accepts |
| Scenarios.CapitalsArgumentIsUser | simplechatter.py:193 | the argument of "/mode   USER", stripped and lower-cased, is "user" |

Proof helpers, which model nothing in the program on their own:

- `ChatSession.AfterAfter`: outcomes gathered in two stretches are the outcomes gathered in one.
- `ChatSession.TurnOfSession`: a turn function equal to `Turn` everywhere, through which `RunBy` is proved without unfolding each turn.

## Left out

- Command-line parsing and the token lookup in the environment are startup glue. Their defaults and flags are left out. `Settings` holds the decoded options the loop uses.
- The exit with status 2 when the extra-parameters option is refused is not modelled. `ParseExtraParams` models the refusal itself.
- The HTTP call (`post_json`) is left out: URL, headers, timeout, encoding of the body, UTF-8 decoding with replacement. It is a `Reply` input. A reply to a request never sent is simply not consumed.
- A reply sequence that runs out is read as a failed connection. The program would block or fail there.
- JSON text parsing and serialising are external code. Decoding is the `loads` parameter. Serialising is not modelled, so the round trip of `/show` output (`json.dumps` and back) is left out. `Shown` carries exactly the history it would print.
- Console output (the prompt, the help text, status lines, error messages) and the process exit code are not modelled. Outcomes stand for what is printed.
- Temperature and top_p are floats that are only passed through. They are opaque values (`FloatValue`).
- The order of keys in a payload is not modelled: payloads are maps. Python's dict keeps insertion order, but nothing in the program depends on it.
- Text.Lower: lower-cases ASCII letters only; Python's `str.lower` also maps other scripts. Outside ASCII, Python's lower-casing yields an ASCII letter only for the Kelvin sign (U+212A, to "k") and for U+0130 (to "i" followed by the combining dot U+0307). No mode name contains a "k" or a U+0307, so the model accepts the same mode names. Only the argument carried by `ModeInvalid` can differ, and the program does not print it.
- An interrupt (Ctrl-C) during a request is not modelled. An interrupt while reading a line is: it is the `KeyboardInterrupt` read result and ends the run.
