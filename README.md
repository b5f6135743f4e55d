# Clawdbot Pro chat session, modelled in Dafny

Clawdbot Pro is a Streamlit page that chats with a locally hosted language
model. Its only logic is the chat step of `app.py`: pick a system directive from
the selected mode, keep the conversation as a list of `{role, content}` turns,
recognise `search:` commands and send them to a web search, otherwise flatten
directive and history into one prompt for the model, and rewrite the whole
list to `memory.json` after every typed message.

The model has four modules:

- `Text` (`text.dfy`): the Python string operations the step uses: `lower()`
  on ASCII letters, `startswith`, `replace("search:", "")` as a left-to-right,
  non-overlapping removal, and `strip()` with Python's whitespace set.
- `Prompt` (`prompt.dfy`): turns, `get_system_prompt`, and prompt assembly. It
  has a pure `Assemble` function and a `BuildPrompt` method that runs the
  source's accumulating loop. The method is proved equal to the function.
- `Search` (`search.dfy`): classifying an input as a search command, and
  extracting the query exactly as the code does. The query is the input with
  every lower-case `search:` removed, then trimmed. So `"Search: x"` counts as
  a search, but its `Search:` stays in the query.
- `Session` (`session.dfy`): the memory file (`MemoryFile`), the session
  (`ChatSession`, whose `messages` field is the list the page mutates), and
  pure specifications of one exchange (`Exchange`), a voice capture (`Voice`)
  and a series of reruns (`Run`).

The model calls three external services: the web search, the generation
endpoint and the speech recogniser. They are parameters. `search` maps a query
to the already-stringified results. `gateway` maps a prompt to a `Reply`:
`Answer(text)`, `MissingField` or `Failed(error)`. `Heard` is what the
recogniser returned. `Submit` also returns a `Call` describing its request,
`WebSearch(query)` or `ModelQuery(prompt)`. That value is set by `Submit`
itself, so it records the branch taken, not what a service received. The
statement that a search never consults the model is
`Session.SearchAnswered`: for a search command, the exchange is the same
whatever gateway is supplied.

Streamlit reruns the whole script on every interaction. The mode is re-read
each time, so `Submit` takes the mode as an argument. The message list
survives reruns. `memory.json` is read again on every rerun (`app.py:40-44`),
but the list read is used only when the session has no list yet
(`app.py:46-47`). So the model reads it once, in the `ChatSession` constructor.

Two behaviours of the code are easy to misread, and the model follows the
code in both:

- A search command's query is not simply the input with its leading prefix
  cut off. The code removes every lower-case `search:` anywhere in the input.
  A capitalised `Search:` still makes the input a search command, but it stays
  in the query.
- A voice capture is not a full exchange. It appends one user turn and
  nothing else: no reply, and the file is not saved. The turn reaches the file
  only with the next typed message.

## Model

| member | source | states |
|---|---|---|
| Text.LowerChar | app.py:111 | only `A`..`Z` change, each to the letter 32 code points on; the result is never an upper-case ASCII letter |
| Text.Lower | app.py:111 | `lower()` keeps the length and lowers each character on its own |
| Text.StartsWith | app.py:111 | `startswith` holds exactly when the text is at least as long as the prefix and agrees with it at every position |
| Text.RemoveAll | app.py:112 | `replace(p, "")` never lengthens the text and only deletes: every character of the result occurs in the input |
| Text.RemoveAllUnchanged | app.py:112 | `replace` leaves the text unchanged exactly when the removed text occurs nowhere in it |
| Text.RemoveAllLeading | app.py:112 | an occurrence at the start is removed and the scan resumes right after it |
| Text.RemoveAllSkip | app.py:112 | a character at which the removed text does not start is kept and the scan moves on by one |
| Text.RemoveAllPassOver | app.py:112 | a stretch that never contains the first character of the removed text is kept whole |
| Text.RemoveAllFirst | app.py:112 | a stretch in which no occurrence of the removed text starts is kept whole, and the scan resumes after it |
| Text.OccursShift | app.py:112 | an occurrence at index `i` of a text is one at `i + 1` once a character is put in front |
| Text.IsSpace | app.py:112 | the characters `strip()` removes are exactly Python's whitespace code points: 9-13, 28-32, 0x85, 0xA0, 0x1680, 0x2000-0x200A, 0x2028, 0x2029, 0x202F, 0x205F, 0x3000 |
| Text.TrimStart | app.py:112 | the result is a suffix of the input; everything dropped is whitespace; the result does not start with whitespace |
| Text.TrimEnd | app.py:112 | the result is a prefix of the input; everything dropped is whitespace; the result does not end with whitespace |
| Text.Strip | app.py:112 | `strip()` returns a contiguous slice with only whitespace outside it and no whitespace at either end |
| Text.TrimEndAfter | app.py:112 | text ending in a non-space survives `rstrip` of a longer text whole |
| Text.StripAfter | app.py:112 | stripping text that begins with a non-blank stretch keeps that stretch and trims only the end of the rest |
| Prompt.RoleName | app.py:127 | the role is written as `user` exactly for user turns and `assistant` exactly for assistant turns |
| Prompt.SystemPrompt | app.py:24-35 | the copilot directive exactly for mode `Coding Copilot`; `You are a helpful AI assistant.` exactly for every other mode |
| Prompt.BuildPrompt | app.py:124-129 | the accumulating loop produces `Assemble(directive, messages)`: the directive, a line break, `role: content` plus a line break per turn, then `assistant:` |
| Prompt.LineShape | app.py:127 | a turn's line is `role: `, the content whole, and a line break |
| Prompt.LinesLength | app.py:124-129 | every turn adds at least seven characters, and the lines of a non-empty history end with a line break |
| Prompt.LinesAppend | app.py:126-127 | the lines of a history are the lines of its first part followed by the lines of the rest |
| Prompt.LineInPrompt | app.py:124-129 | no truncation and no reordering: every turn's line appears whole, after the lines of all earlier turns and before those of all later ones |
| Prompt.Assemble | app.py:124-129 | the prompt starts with the directive and a line break and ends with `assistant:` |
| Prompt.PromptGrows | app.py:124-129 | a longer history keeps the earlier prompt, without its marker, as a prefix |
| Prompt.PromptEndsWithUserTurn | app.py:103-129 | with the user turn appended before assembly, the prompt ends with `user: <input>`, a line break, and `assistant:` |
| Prompt.GreetingPrompt | app.py:124-129 | the assistant directive and one user turn `hi` give `You are a helpful AI assistant.\nuser: hi\nassistant:` |
| Search.IsSearchCommand | app.py:111 | an input is a search command if and only if it has at least 7 characters and its first 7, lowered, spell `search:` |
| Search.ExtractQuery | app.py:112 | the query is no longer than the input and has no whitespace at either end; an input with no lower-case `search:` is only trimmed |
| Search.PlainSearchQuery | app.py:112 | `search:` followed by text with no further lower-case marker gives that text, trimmed |
| Search.FirstMarkerRemoved | app.py:112 | the first lower-case `search:`, wherever it stands, is removed; the text before it is kept whole and the rest is processed in turn |
| Search.CapitalisedMarkerKept | app.py:111-112 | `Search:` followed by anything is a search command, yet the query still begins with `Search:` |
| Search.InnerMarkerRemoved | app.py:112 | in `search:` + a + `search:` + b, both markers are removed whenever no marker starts inside a (as in `search: rust search: docs`); the query is a followed by b with its markers removed, trimmed |
| Search.RemovalNotRepeated | app.py:112 | removal does not rescan: `se` + `search:` + `arch:` leaves a query that begins with `search:` |
| Search.MarkerReformed | app.py:112 | removing the marker from `se` + `search:` + `arch:` + q gives `search:` followed by q with its markers removed |
| Search.MarkerMustLead | app.py:111 | a marker later in the text does not make a search command; `SEARCH:` at the start does |
| Session.ReplyText | app.py:148-151 | a chat reply is recorded as the `response` field, as `No response from model.` when the field is absent, or as the error text behind the warning prefix |
| Session.Transcript | voice.py:18-26 | recognised speech is passed on as heard; both failure messages are non-empty text |
| Session.Dispatch | app.py:111-137 | search commands, and only they, go to the web search with the extracted query; any other input goes to the model with a prompt whose last line is `user: <input>` |
| Session.Exchange | app.py:102-155 | an empty input changes nothing; otherwise exactly two turns are appended, the user's input and then an assistant turn, and every earlier turn keeps its place |
| Session.Voice | app.py:84-92 | a non-empty transcript appends exactly one user turn; an empty one appends nothing; no assistant turn is added |
| Session.Run | app.py:84-162 | over any series of typed and spoken inputs the list only grows, by two per typed message and one per voice capture, and earlier turns stay in place |
| Session.TypedOnly | app.py:102-162 | after n non-empty typed messages, search commands and model queries alike, the list holds exactly 2n more turns |
| Session.FailureContained | app.py:150-155 | a failed model call still completes the exchange, with an assistant turn holding the warning-prefixed error text |
| Session.ModelReplyRecorded | app.py:148-155 | a model query's assistant turn is the `response` field, `No response from model.` when the field is absent, or the warning-prefixed error text when the call failed |
| Session.SearchAnswered | app.py:111-120 | a search command's assistant turn is the search result for the extracted query, whatever the model would have answered |
| Session.ApologyRecordedAsSpeech | voice.py:18-26 | both recogniser failure messages are recorded as user turns, as if the user had said them |
| Session.AnalysisPrompt | app.py:60-64 | the analysis request holds the whole file after the fixed 46-character instruction, followed by a line break |
| Session.AnalysisText | app.py:77-81 | the analysis shows the `response` field, the fallback, or `Error: <e>`, which differs from the warning-marked chat error text |
| Session.MemoryFile.Load | app.py:40-44 | an absent file loads as the empty list; a present one loads the saved list |
| Session.MemoryFile.Save | app.py:160-162 | the file afterwards holds exactly the given list |
| Session.SaveThenLoad | app.py:40-44 | whatever list is saved is the list loaded afterwards |
| Session.ChatSession.constructor | app.py:39-47 | the session starts with the loaded list, or with no turns when there is no file |
| Session.ChatSession.Submit | app.py:102-162 | the new list is `Exchange` of the old one; the request it describes is `Dispatch` (the extracted query for a search command, the assembled prompt otherwise); the file then holds the whole new list, and an empty input changes nothing |
| Session.ChatSession.VoiceMode | app.py:84-92 | the new list is `Voice` of the old one; the file is untouched |
| Session.ChatSession.AnalyzeFile | app.py:55-81 | shows the reply, the fallback text or `Error: <e>`, and changes neither the list nor the file |

## Left out

- Page layout, widgets and rendering (`st.*` calls, the chat-message display, the success and error banners): user interface only.
- The HTTP request to the generation endpoint, its JSON body, options and timeouts: network I/O, replaced by the `gateway` parameter. The temperature is a float and plays no part in the logic.
- JSON encoding and decoding of `memory.json`: library serialisation. The file is modelled as an absent-or-saved list, and a malformed file is not modelled.
- `speak("Processing your request")` and the microphone handling in `voice.py`: audio side effects.
- `search_web` and the `str(results)` conversion: library calls. The `search` parameter returns the text directly, and a search that raises is not modelled.
- Decoding an uploaded file as UTF-8, which can raise outside the `try`: the file content is given as a string.
- Text.LowerChar: lowers ASCII letters only. Python's `lower()` also lowers other letters, and for a few of them it changes the length of the string.
- The file read on every rerun (`app.py:40-44`): the model reads the file once. A file that becomes unreadable after the session starts breaks every later rerun of the page, and this is not modelled.
- Session.Run: the search and the gateway are fixed functions of their input, so two identical requests in one run get the same answer. The real services may answer differently.
