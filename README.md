# nouvo.dev backend — a Dafny model of its decision logic

This project models the deterministic logic of the nouvo.dev backend in Dafny 4.11. Most of that backend is HTTP plumbing around calls to the OpenAI chat-completion service, Google Calendar, Gmail and Firestore. Every foreign call is an input to the model: its outcome is a datatype, or a function parameter. Three pieces are modelled.

- **The Flask `/api/generate` handler** (`app.py`), module `FlaskGenerate` (file `flask_generate.dfy`). It maps the HTTP method, the request body and the provider's answer to the response and the provider request, if one was made.
- **The Next.js `POST /api/generate` route** (`app/api/generate/route.ts`), module `NextGenerate` (file `next_generate.dfy`).
  - It makes the same decision under JavaScript's truthiness and optional chaining.
  - A failing provider status is passed through unchanged.
  - Lemmas compare it with the Flask handler. `HandlersAgree` covers an object body whose `userInput` is neither `[]` nor `{}`, and the provider outcomes the Python client returns. On those, the two handlers make the same provider request and give the same answer.
  - The handlers part ways in three places:
    - an input of `[]` or `{}` is falsy in Python but truthy in JavaScript (`EmptyListInputDiverges`);
    - a body that decodes to a list, string, number or boolean gives Flask's generic 500, because `.get` fails, but the route's 400 (`NonObjectBodyDiverges`);
    - a provider error status makes the Python client raise, so Flask answers 500, while the route passes the status through. `Mirror` has no image of such a status.
- **The chat prototype** (`old_backend/.ipynb_checkpoints/app-checkpoint.py`):
  - `Conversation` (file `conversation.dfy`): the conversation-history store, as a class `ConversationStore`. Its `Chat` method is proved against the pure function `Turn`, `History` against `HistoryReply`, and `Clear` against map removal. The module also holds the 20-entry truncation, prompt assembly and the context text.
  - `ChatContext` (file `chat_context.dfy`): the per-e-mail and per-event lines and the context-building loops.
  - `EmailCommand` (file `email_command.dfy`): the parser for `send email to: … subject: … body: …` and the e-mail follow-up.
  - `CalendarEvent` (file `calendar_event.dfy`): the `{…}` slice, the `create_calendar_event` helper and the event follow-up.
  - `Todos` (file `todos.dfy`): task normalisation in `POST /todos`.

Shared vocabulary:

- `Json` (file `json.dfy`): decoded JSON values, responses, Python/JavaScript truthiness, `dict.get` and Python iteration.
- `Text` (file `text.dfy`): Python's `in`, `find`/`rfind`, `split(sep, 1)`, slicing, `strip()` and `lower()`.
- `Provider` (file `provider.dfy`): chat messages, the completion request and the provider outcome.

Neither generate handler trims the input, enforces a minimum length, retries the provider call, answers 503, or adds a `details` field to an error. `FlaskGenerate.NoTrimmingOrMinimumLength` states that any non-empty input, whitespace included, is forwarded unchanged.

## Model

| member | source | states |
|---|---|---|
| Provider.SuggestionRequest | app.py:28-42 | The provider request is model "gpt-4", temperature 0.7, max_tokens 500, and exactly two messages: the fixed Nouvo system prompt, then the user input verbatim. |
| Json.PyTruthy | app.py:25 | Python's `not v` is true exactly for None, False, 0, "", [] and {}. |
| Json.JsTruthy | app/api/generate/route.ts:8 | JavaScript's `!v` is true exactly for undefined, null, false, 0 and ""; every array and object is truthy. |
| Json.TruthinessDiffers | app/api/generate/route.ts:8 | The two truthiness rules disagree exactly on the empty list and the empty object, and Python-truthy implies JavaScript-truthy. |
| Json.PyIter | old_backend/.ipynb_checkpoints/app-checkpoint.py:752 | A Python `for` succeeds exactly on a list, a string or a dict, visiting the list's elements, each character as a one-character string, or each key, all in order; it is empty exactly when the value is falsy. |
| FlaskGenerate.UserInput | app.py:22-23 | `data.get('userInput')` succeeds exactly for a body that decodes to an object; it gives the member, or None when absent. |
| FlaskGenerate.Generate | app.py:16-51 | OPTIONS answers 204 with no body. The provider is called exactly when a POST carries a truthy `userInput`, and with that value. 400 "User input is required" exactly for a falsy one. 200 `{suggestion}` exactly when the call returned a non-empty first choice. 500 "Invalid response from AI service" exactly for no choices or empty content. Every other answer is a 500. |
| FlaskGenerate.NoTrimmingOrMinimumLength | app.py:25-38 | Any non-empty string input, whitespace-only included, reaches the provider as the user message unchanged. |
| FlaskGenerate.NonObjectBodyIsUnexpected | app.py:21-51 | A body that decodes to anything but an object makes `data.get` raise. The answer is the generic 500, and nothing is sent. |
| NextGenerate.Destructure | app/api/generate/route.ts:6 | Destructuring throws exactly for an unreadable or null body. An object gives its `userInput` member; any other value gives undefined. |
| NextGenerate.Content | app/api/generate/route.ts:53 | The optional chain finds content only in an object with a `choices` member, and never when `choices` is empty. |
| NextGenerate.ContentOfFirstChoice | app/api/generate/route.ts:53-62 | For a provider answer of the documented shape, the chain yields the first choice's `message.content`. |
| NextGenerate.Post | app/api/generate/route.ts:4-72 | The fetch is made exactly when the destructured `userInput` is JavaScript-truthy, with the Bearer key and the shared request. A falsy input gives 400. A non-ok provider status is returned as the status with "Failed to generate website idea" when a response may carry a body with it (200-599 except 204, 205 and 304). For any other status, building the answer throws and the catch answers the generic 500. Missing `choices[0].message.content` gives 500 "Invalid response from AI service". A network failure, an unreadable or null body, or a null request body gives the generic 500. |
| NextGenerate.NotModifiedIsUnexpected | app/api/generate/route.ts:45-70 | A provider 304 cannot be passed on: the response constructor throws, and the answer is the generic 500. |
| NextGenerate.HandlersAgree | app/api/generate/route.ts:4-72 | For an object body whose `userInput` is neither an empty list nor an empty dict, the route and the Flask handler make the same provider request and give the same response for corresponding provider outcomes. |
| NextGenerate.EmptyListInputDiverges | app/api/generate/route.ts:8-13 | `userInput: []` is refused with 400 by Flask but sent to the provider by the route. |
| NextGenerate.NonObjectBodyDiverges | app/api/generate/route.ts:6-13 | A list, string, number or boolean body gives Flask's generic 500 but the route's 400. |
| ChatContext.HeaderValueFirstMatch | old_backend/.ipynb_checkpoints/app-checkpoint.py:329-330 | The header lookup yields the value of the first header with that name. |
| ChatContext.HeaderValueAbsent | old_backend/.ipynb_checkpoints/app-checkpoint.py:329-330 | With no such header, the lookup yields the default ("No Subject", "Unknown Sender"). |
| ChatContext.EmailLine | old_backend/.ipynb_checkpoints/app-checkpoint.py:331 | Each e-mail contributes one line, starting with "- From: " and ending with a line break. |
| ChatContext.EmailLineNamed | old_backend/.ipynb_checkpoints/app-checkpoint.py:329-331 | The line shows the value of the first From header and of the first Subject header. |
| ChatContext.EmailLineDefaults | old_backend/.ipynb_checkpoints/app-checkpoint.py:329-331 | An e-mail without From and Subject headers is listed as "Unknown Sender" and "No Subject". |
| ChatContext.StartText | old_backend/.ipynb_checkpoints/app-checkpoint.py:348 | An event's start is its `dateTime`, else its `date`, else "None". |
| ChatContext.EventLine | old_backend/.ipynb_checkpoints/app-checkpoint.py:348-350 | An event line is "- summary (starts at start)", with "Untitled Event" for a missing summary. |
| ChatContext.LinesAppend | old_backend/.ipynb_checkpoints/app-checkpoint.py:320-331 | The context lines of `a + b` are those of `a` followed by those of `b`, so every item contributes one line, in order. |
| ChatContext.BuildSection | old_backend/.ipynb_checkpoints/app-checkpoint.py:316-350 | The accumulation loop yields "" for an empty listing, and otherwise the heading followed by one line per item in order. |
| Conversation.GatherContext | old_backend/.ipynb_checkpoints/app-checkpoint.py:304-358 | The context text is "Current context:", then the calendar part, then the Gmail part. After a failure the calendar part is the unavailable note, and the Gmail part is whatever had been built. |
| Conversation.ContextText | old_backend/.ipynb_checkpoints/app-checkpoint.py:352-371 | The second system message is "Current context:", then the calendar part, then the e-mail part. After a failed read, the unavailable note follows the heading directly. |
| Conversation.Lookup | old_backend/.ipynb_checkpoints/app-checkpoint.py:297-302 | A string id that is stored gives its history, and an unseen one starts from `[]`, as lines 301-302 initialise it. Any id that is not a string gives `[]`. The result is well formed in a well-formed store. |
| Conversation.DumpKey | old_backend/.ipynb_checkpoints/app-checkpoint.py:187-189 | The key a history is saved under: a string id is itself. A numeric id becomes the digits whose value is that number, with a leading '-' when it is negative. |
| Conversation.Decimal | old_backend/.ipynb_checkpoints/app-checkpoint.py:187-189 | `str(n)`: a non-empty string of digits whose value is n, or '-' followed by the digits of -n. |
| Conversation.DecimalInjective | old_backend/.ipynb_checkpoints/app-checkpoint.py:187-189 | Distinct integers are written differently. |
| Conversation.DumpKeyKeepsNumbersApart | old_backend/.ipynb_checkpoints/app-checkpoint.py:297-302 | Distinct numeric ids are saved under distinct keys, so a turn under one number leaves another number's history alone. |
| Conversation.Prompt | old_backend/.ipynb_checkpoints/app-checkpoint.py:362-380 | The prompt has \|history\| + 3 messages: the persona, the context, the stored history in order, and the user message last. |
| Conversation.AssemblePrompt | old_backend/.ipynb_checkpoints/app-checkpoint.py:362-380 | The list built by `extend` and `append` is exactly that prompt. |
| Conversation.AppendTurn | old_backend/.ipynb_checkpoints/app-checkpoint.py:467-479 | After a turn the history has min(\|h\| + 2, 20) entries and ends with the user message and then the assistant reply. It is the newest part of `h + [user, assistant]`, and exactly that list when it fits in 20. |
| Conversation.AppendTurnWellFormed | old_backend/.ipynb_checkpoints/app-checkpoint.py:467-479 | A turn keeps a history as whole user/assistant exchanges within 20 entries, because the truncation drops an even number of entries. |
| Conversation.FullHistoryDropsOldestTurn | old_backend/.ipynb_checkpoints/app-checkpoint.py:477-479 | A full history loses exactly its oldest exchange. |
| Conversation.Take | old_backend/.ipynb_checkpoints/app-checkpoint.py:290-295 | For an object body, a missing or falsy `message` is refused with 400 "No message provided"; otherwise the message is accepted with `conversation_id`, defaulting to "default". |
| Conversation.Admit | old_backend/.ipynb_checkpoints/app-checkpoint.py:290-358 | A turn goes on to the model exactly when the body has a truthy message, the id is hashable and the context reads did not fail for missing credentials. A list or dict id answers 500 "unhashable type" before any context is read. Missing credentials answer 401 with the authorisation URL. Every body refusal is passed on unchanged. |
| Conversation.Answer | old_backend/.ipynb_checkpoints/app-checkpoint.py:383-388 | The reply is the first choice's content. It exists exactly when the call returned a first choice whose content is not None. |
| Conversation.FollowUps | old_backend/.ipynb_checkpoints/app-checkpoint.py:390-465 | The follow-ups only append to the model's reply. |
| Conversation.Turn | old_backend/.ipynb_checkpoints/app-checkpoint.py:287-491 | A turn refused before the model is asked changes nothing and sends nothing. Only a turn that asked the model can answer 200. |
| Conversation.RecordTouchesOnlyItsEntry | old_backend/.ipynb_checkpoints/app-checkpoint.py:467-482 | Recording adds or replaces the one entry the id is saved under, ending with the exchange within 20 entries, and keeps every other entry. |
| Conversation.TurnTouchesOnlyItsEntry | old_backend/.ipynb_checkpoints/app-checkpoint.py:287-491 | Only a successful turn changes the store, and then only the entry for its own id; every failure leaves the store as it was. |
| Conversation.TurnRecordsExchange | old_backend/.ipynb_checkpoints/app-checkpoint.py:362-489 | A successful turn sends the prompt built from the stored history and answers 200 with the full reply and the id. The id's history then ends with the user message and the full reply, within 20 entries, and is exactly old + 2 entries when that fits. |
| Conversation.RecordKeepsStoreWellFormed | old_backend/.ipynb_checkpoints/app-checkpoint.py:467-482 | Recording an exchange keeps every stored history well formed. |
| Conversation.TurnKeepsStoreWellFormed | old_backend/.ipynb_checkpoints/app-checkpoint.py:287-491 | Any turn keeps every stored history well formed. |
| Conversation.DefaultConversation | old_backend/.ipynb_checkpoints/app-checkpoint.py:292 | A turn without `conversation_id` is filed under "default". |
| Conversation.NumericIdStartsOver | old_backend/.ipynb_checkpoints/app-checkpoint.py:297-302 | A numeric id never finds its history, since the file's keys are strings. Its entry holds only the latest exchange. |
| Conversation.NumericIdSharesStringEntry | old_backend/.ipynb_checkpoints/app-checkpoint.py:297-302 | A turn under a number replaces the history of the string id with the same digits, since the later key wins when the file is read back. |
| Conversation.HistoryReply | old_backend/.ipynb_checkpoints/app-checkpoint.py:494-501 | The history endpoint answers 200 with one `{role, content}` object per stored entry, in order, and `[]` for an unknown id. |
| Conversation.ConversationStore.constructor | old_backend/.ipynb_checkpoints/app-checkpoint.py:180-185 | The store starts empty, as when no history file exists. |
| Conversation.ConversationStore.Chat | old_backend/.ipynb_checkpoints/app-checkpoint.py:287-491 | The method's answer and new store are those of `Turn`, and the store stays well formed. |
| Conversation.ConversationStore.History | old_backend/.ipynb_checkpoints/app-checkpoint.py:494-501 | Reading a history answers as HistoryReply and changes nothing. |
| Conversation.ConversationStore.Clear | old_backend/.ipynb_checkpoints/app-checkpoint.py:504-513 | Clearing removes exactly that id's entry, whether or not it existed, keeps every other entry, and answers "Conversation history cleared". |
| Text.FirstLine | old_backend/.ipynb_checkpoints/app-checkpoint.py:429 | The command line is the prefix of the reply before its first line break, or the whole reply when it has none. |
| Text.IndexOf | old_backend/.ipynb_checkpoints/app-checkpoint.py:395 | `find` gives the first index of the character, or -1 when it does not occur. |
| Text.LastIndexOf | old_backend/.ipynb_checkpoints/app-checkpoint.py:395 | `rfind` gives the last index of the character, or -1 when it does not occur. |
| Text.SliceBound | old_backend/.ipynb_checkpoints/app-checkpoint.py:395 | A bound inside the string is kept. A negative bound counts from the end and stops at 0. A bound past the end stops at the end. |
| Text.PySlice | old_backend/.ipynb_checkpoints/app-checkpoint.py:395 | The slice holds the characters from the lower bound up to the upper one, and is "" when the bounds are in the wrong order. |
| Text.SplitOnce | old_backend/.ipynb_checkpoints/app-checkpoint.py:432-438 | `split(sep, 1)` gives one part exactly when `sep` does not occur. Otherwise it gives two parts joined by `sep` back into the input, split at the first occurrence. |
| Text.Strip | old_backend/.ipynb_checkpoints/app-checkpoint.py:433-438 | `strip()` leaves no whitespace at either end. |
| Text.StripSurrounded | old_backend/.ipynb_checkpoints/app-checkpoint.py:433-438 | Stripping removes exactly the surrounding whitespace and nothing else. |
| Text.StripIdempotent | old_backend/.ipynb_checkpoints/app-checkpoint.py:433-438 | Stripping twice changes nothing more. |
| Text.Lower | old_backend/.ipynb_checkpoints/app-checkpoint.py:423 | `lower()` maps each character independently and keeps the length. |
| EmailCommand.ParseCommand | old_backend/.ipynb_checkpoints/app-checkpoint.py:432-442 | The command is malformed (the IndexError) exactly when there is no `subject:`, or no `to:` before it. Without `body:` the body is "No message content provided". |
| EmailCommand.ParseCommandStripped | old_backend/.ipynb_checkpoints/app-checkpoint.py:433-442 | Recipient, subject and body come out stripped. |
| EmailCommand.ParseFormatRoundTrip | old_backend/.ipynb_checkpoints/app-checkpoint.py:429-442 | A command in the system prompt's format parses back to exactly its parts when the recipient holds no `subject:`, the subject holds no `body:`, and no part has surrounding whitespace. Colons elsewhere, as in "Re: lunch", are fine. |
| EmailCommand.ReplySubjectRoundTrip | old_backend/.ipynb_checkpoints/app-checkpoint.py:432-438 | A subject such as "Re: lunch" is read back exactly. |
| EmailCommand.FormatIsTriggered | old_backend/.ipynb_checkpoints/app-checkpoint.py:423 | A command in the prompt's format passes the trigger test. |
| EmailCommand.UpperCaseCommandIsMalformed | old_backend/.ipynb_checkpoints/app-checkpoint.py:423-436 | The trigger test ignores case but the markers do not: an upper-case command is triggered and then malformed. |
| EmailCommand.TriggerOnFirstLine | old_backend/.ipynb_checkpoints/app-checkpoint.py:423-432 | A trigger on the first line is a trigger in the whole reply. |
| EmailCommand.EmailFollowUp | old_backend/.ipynb_checkpoints/app-checkpoint.py:423-465 | An untriggered reply is left alone. A mail is sent exactly for a well-formed first-line command with a recognisable address, and with the matched address, subject and body. A malformed command appends the IndexError note. |
| EmailCommand.FirstLineIgnoresAppended | old_backend/.ipynb_checkpoints/app-checkpoint.py:429 | Text appended after a line break does not change the command line. |
| CalendarEvent.JsonSlice | old_backend/.ipynb_checkpoints/app-checkpoint.py:395 | The slice runs from the first `{` to the last `}`. It is "" when they are in the wrong order or `}` is missing. Without `{` it is "}" or "", because `find` answers -1. |
| CalendarEvent.JsonSliceEmbedded | old_backend/.ipynb_checkpoints/app-checkpoint.py:395 | An object written into prose with no `{` before it and no `}` after it is cut out exactly. |
| CalendarEvent.EventBody | old_backend/.ipynb_checkpoints/app-checkpoint.py:731-762 | The helper succeeds only for details that are a dict; its members are stated by the four lemmas that follow. |
| CalendarEvent.BuildEvent | old_backend/.ipynb_checkpoints/app-checkpoint.py:731-762 | The helper's step-by-step key insertion yields exactly the event body EventBody describes, or the exception it raises. |
| CalendarEvent.EventBodyFails | old_backend/.ipynb_checkpoints/app-checkpoint.py:731-762 | The helper raises exactly for details that are not a dict, or for truthy attendees that cannot be iterated. |
| CalendarEvent.EventBodyFixed | old_backend/.ipynb_checkpoints/app-checkpoint.py:733-744 | Summary and description are copied, null when absent. Start and end carry the same time zone, "America/Phoenix" unless one is given. |
| CalendarEvent.EventBodyOptional | old_backend/.ipynb_checkpoints/app-checkpoint.py:746-756 | `location`, `attendees` and `recurrence` are present exactly when the detail is truthy. Attendees map one-to-one, in order, to `{'email': e}`. |
| CalendarEvent.EventBodyKeys | old_backend/.ipynb_checkpoints/app-checkpoint.py:733-756 | The body holds the four fixed keys, each optional key whose detail is truthy, and no other key. |
| CalendarEvent.EventFollowUp | old_backend/.ipynb_checkpoints/app-checkpoint.py:390-420 | An event is submitted exactly when a reply containing "action" and "create_event" decodes to an object whose action is "create_event", the calendar service is available and the details build. A decode failure appends the "trouble understanding" note. After insertion the note carries the summary and time, and mentions recurrence exactly when the event recurs. |
| CalendarEvent.MissingDetailsStillCreate | old_backend/.ipynb_checkpoints/app-checkpoint.py:400-403 | Without `event_details` an event is still built, with null fields and the default zone. |
| Todos.NormalizeTask | old_backend/.ipynb_checkpoints/app-checkpoint.py:546-553 | A normalised task is never completed. |
| Todos.NormalizeTaskFields | old_backend/.ipynb_checkpoints/app-checkpoint.py:547-551 | Field by field, each of title, description, priority, due date and category is the task's first member of that name when it has one, and otherwise its default: '', '', 'medium', None, 'general'. |
| Todos.EmptyTaskDefaults | old_backend/.ipynb_checkpoints/app-checkpoint.py:546-553 | A task with no fields at all becomes '', '', 'medium', None, 'general', not completed. |
| Todos.NormalizeStored | old_backend/.ipynb_checkpoints/app-checkpoint.py:546-553 | Normalising a stored task returns it unchanged, so normalisation is a fixed point. |
| Todos.NormalizeAll | old_backend/.ipynb_checkpoints/app-checkpoint.py:546-553 | Normalisation succeeds exactly when every element is a dict, keeping count and order. Otherwise it fails with the AttributeError of the first element that is not a dict. |
| Todos.CreateTodoList | old_backend/.ipynb_checkpoints/app-checkpoint.py:533-566 | A falsy name answers 400 "List name is required", with nothing written. A write carries the name and exactly the normalised tasks. 200 exactly when the tasks normalise and the write succeeds, echoing the submitted tasks. Every other answer is a 500. |
| Todos.StoredTasksFollowRequest | old_backend/.ipynb_checkpoints/app-checkpoint.py:546-553 | The stored list holds one task per submitted task, each normalised from the task at the same position and not completed. |
| Todos.NoTasksIsEmptyList | old_backend/.ipynb_checkpoints/app-checkpoint.py:537 | A request without `tasks` stores an empty list. |

## Left out

- File persistence of the history (`load_conversation_history`/`save_conversation_history`): the store is in memory. The one effect of the JSON file that is modelled is that keys are strings (see `NumericIdStartsOver`). The file's unlocked read-modify-write is a concurrency hazard and is not modelled.
- A failing `save_conversation_history` is not modelled. A string id and a numeric id with the same digits share one entry of the store, which holds what the file keeps: the later write.
- Python's 1 == True key identity is not modelled.
- The OAuth flow, token pickling and refresh, and the `/test`, `/calendar/*`, `/events`, `/assignments`, `/exams` and `GET /todos` routes: these are foreign SDK calls and I/O. The `/calendar/create-event` route (line 617) is one of these; the model covers only the helper of the same name at line 731, which the chat turn calls.
- The Gmail, Calendar and Firestore calls: they appear only through their outcomes, namely `ContextFetch`, `CalendarService`, `InsertOutcome`, `GmailService`, `SendOutcome` and `StoreOutcome`.
- `send_email`'s MIME building and base64 encoding: library calls, represented by `SendOutcome`.
- The address regex (line 446), `json.loads`, the time formatting (`fromisoformat`/`strftime`, lines 406-407) and the f-string rendering of the summary: these are function parameters of the follow-ups.
- The chat prototype's system prompt text (lines 33-112): a parameter of the store (`persona`).
- The OpenAI calls themselves: they are the `Completion` and `FetchOutcome` inputs.
- CORS configuration, logging, `print`, `app.run` and environment reads: the API key is a parameter.
- Flask's 405 for other methods: not modelled, because the framework answers it outside the handler.
- Floating-point JSON numbers, NaN and non-ASCII case mapping in `lower()` are not modelled. Numbers are integers (a float `userInput` such as 0.0 is not represented); `Text.Lower` maps ASCII letters only.
- Duplicate keys in a decoded object are not modelled. Lookups take the first member, as the decoders never produce duplicates.
- `EmailCommand.EmailFollowUp`: does not state the exact wording of the sent, failed and no-address notes in its contract. The body gives them as the source writes them.
- `CalendarEvent.EventFollowUp`: non-dict decoded data and failed calendar services are covered by the body and not restated in the contract.
- `get_upcoming_events` (line 164) is dead code and is not modelled.
- The `created_at` timestamp of a stored todo list (line 554) is the clock's, so `Todos.TodoList` has no such field.
