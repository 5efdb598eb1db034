# AI Clone Me — a verified model of the client session and the clone service

AI Clone Me lets a person describe a persona and register it as an "AI
clone". They can then ask the service to have two clones chat with each
other.

The system has two parts, and this project models the core of each in Dafny:

- **The single-page client** (`frontend/src/App.js`). The `App` component keeps
  the session state: the current view, the cached users and conversations,
  the signed-in user, a `loading` flag, the personality form with its three
  tag lists, and three pending-input strings. Its handlers change that state
  step by step. The model is the class `Client.App`. Its fields are those
  hooks and its methods are the handlers.
- **The clone service** (`backend/server.py`). It is a FastAPI application over
  two MongoDB collections and a language model.
  - The model keeps the collections as sequences in the class `Server.Store`.
  - Each request handler becomes a method that returns a `Reply`: a body, or
    an HTTP status with its cause.
  - The persona prompt builder is a pure function.
  - The conversation generator becomes a method with the source's loop.

The modules:

| file | module | contents |
|---|---|---|
| `records.dfy` | `Records` | the record shapes (`Personality`, `User`, `Message`, `Conversation`, `Participants`, `Listed`) and `Reply` |
| `text.dfy` | `Text` | JavaScript's `trim`, Python's `", ".join`, the decimal spelling of `Date.now()` |
| `server.dfy` | `Server` | the persona prompt, the conversation generator, lookups, and the `Store` with its request handlers |
| `client.dfy` | `Client` | the personality form, the user record the client builds, the render dispatch, and the `App` class |

How the model abstracts the edges:

- **The language model.**
  - A chat is modelled by its session id and its persona (`Chat`).
  - `send_message` is a function supplied by the caller: `Llm = (Chat, nat, Prompt) -> Option<string>`.
    - The `nat` is the index of the message being produced, so that the same chat may answer the same prompt differently later on.
    - `None` stands for a call that raises.
    - The prompt is passed as a `Prompt` value (a starter or a reply) instead of its text. `PromptTextInjective` shows that nothing is lost by this, because different prompts have different texts.
- **HTTP calls of the client.** Each axios request becomes an outcome parameter:
  - a `bool` for a POST that succeeds or fails;
  - an `Option` for a GET, where `None` means the request failed.
- **Clocks and identifiers.**
  - `Date.now()`, `toISOString()`, `datetime.now()` and `uuid4()` are parameters.
  - `now(k)` is the clock reading taken for message `k`.
- **Alerts.** An `alert(...)` becomes the text that a handler returns.

Two behaviours of the source are kept as written:

- **Every error of the service is a 500.**
  - Each handler's `except Exception` also catches the `HTTPException` it
    raised itself inside the same `try`, and re-raises it as a 500:
    - a duplicate username: 400 becomes 500;
    - a missing user: 404 becomes 500;
    - a missing conversation participant: 404 becomes 500.
  - `Reply.Error(500, context, Raised(400 or 404, detail))` records both the
    status the client sees and the exception that caused it.
  - The test script `backend_test.py` (lines 176 and 236-237) expects 400 and 404. The model follows the code.
- **The 'dashboard' view renders nothing.** A successful create switches the
  view to `"dashboard"`. The render dispatch has no branch for that view, so
  nothing is rendered afterwards (`DashboardShowsNothing`). `currentUser` is set
  only together with that switch (frontend/src/App.js:108-110), and 'dashboard'
  offers no navigation button. So in a real session the "Start Conversation"
  button (frontend/src/App.js:575-579) is never shown, and
  `handleGenerateConversation` cannot be reached from the UI. The model's
  `Navigate` may be called from any view, so its reachable states
  over-approximate the source's. `StartConversationWith` describes what the
  button would do, not a path a user can take.

## Model

| member | source | states |
|---|---|---|
| Text.IsSpace | frontend/src/App.js:64 | The characters `trim` removes are exactly ECMAScript's WhiteSpace and LineTerminator characters. |
| Text.Trim | frontend/src/App.js:64 | `value.trim()` is the longest part of `value` with the ECMAScript white space removed from both ends. The result is empty exactly when `value` is all white space, and it has no white space at either end. |
| Text.TrimIdempotent | frontend/src/App.js:64-68 | Trimming an already trimmed value changes nothing. |
| Text.TrimOfTrimmed | frontend/src/App.js:64-68 | A string with no white space at either end is its own trim. |
| Text.LeadingSpaces | frontend/src/App.js:64 | Counts exactly the white-space characters before the first other character. |
| Text.TrailingSpaces | frontend/src/App.js:64 | Counts exactly the white-space characters after the last other character. |
| Text.Join | backend/server.py:64-66 | `', '.join(items)`: the entries in stored order with the separator between each two. `JoinPart`, `JoinSeparator` and `JoinEnd` pin where each piece sits. |
| Text.JoinEmpty | backend/server.py:64-66 | Joining an empty list gives the empty string, so a persona with an empty list gets a list line with nothing after its heading. |
| Text.JoinPart | backend/server.py:64-66 | `', '.join(items)` holds entry `k` at offset `Offset(k)`, in stored order. |
| Text.JoinSeparator | backend/server.py:64-66 | `', '.join(items)` puts the separator right after every entry except the last. |
| Text.JoinEnd | backend/server.py:64-66 | The last entry ends the joined string. |
| Text.OffsetStep | backend/server.py:64-66 | Entry `k + 1` starts one entry and one separator after entry `k`. |
| Text.Decimal | frontend/src/App.js:93 | The decimal spelling of `Date.now()` in the user id is non-empty, has only digits and has no leading zero. |
| Text.DecimalRoundTrip | frontend/src/App.js:93 | Reading the spelling back gives the number. |
| Text.DecimalInjective | frontend/src/App.js:93 | Different clock readings are spelled differently. |
| Server.RequestTopic | backend/server.py:50-53 | A request that omits `topic` gets "general chat". An explicit `null` stays `None`, and the starter prompt then spells it "None" (`StarterSpellsTopic`). A given string is kept. |
| Server.PersonalityPrompt | backend/server.py:59-70 | The persona prompt always ends with the closing instructions. `PromptEmbedsLists` states what comes before them. |
| Server.ListLineEntry | backend/server.py:64-66 | Each list line of the persona prompt spells entry `k` after its heading and ": ", at the position `Join` gives it. |
| Server.ListLineSeparator | backend/server.py:64-66 | Each list line puts ", " after every entry except the last. |
| Server.PromptEmbedsLists | backend/server.py:59-70 | The persona prompt opens with "You are " and the name. Right after the head that ends with the communication style come the traits line, the interests line and the favourite-topics line, back to back and in that order; the offset of each is given exactly. |
| Server.ListsInOrder | backend/server.py:64-66 | Three consecutive parts of the prompt sit one after the other at increasing offsets. |
| Server.PromptText | backend/server.py:93-112 | The starter prompt puts the topic and the reply prompt the last message between fixed words. `ReplyQuotesMessage` and `PromptTextInjective` state what the texts carry. |
| Server.TopicText | backend/server.py:93 | The f-string spells a given topic as it is and a topic sent as `null` as "None" (`StarterSpellsTopic` states this). |
| Server.StarterSpellsTopic | backend/server.py:93 | The opening prompt says "…with someone about <topic>." for a given topic, "general chat" for an omitted one, and "None" for a topic sent as `null`, which reaches the prompt unchanged (backend/server.py:196). |
| Server.ReplyQuotesMessage | backend/server.py:112 | A reply prompt contains the message it answers, right after its opening words. |
| Server.PromptTextInjective | backend/server.py:93-112 | Different prompts (starter or reply, with any topic or message) have different texts. |
| Server.ChatFor | backend/server.py:78-88 | A user's chat has session id "clone_" followed by the user id, and its system message is that user's persona prompt. |
| Server.SessionsDiffer | backend/server.py:78-88 | Users with different ids get different chat sessions, so the two personas never share one. |
| Server.Replies | backend/server.py:96-129 | What `Replies` yields for `n` turns has exactly `n` texts. The turn-taking it follows: `ChatAt(k)` is the first user's chat on even turns and the second's on odd ones. `NextPrompt` is the starter for turn 0 and `ReplyTo(last)` after that. |
| Server.RepliesAnswer | backend/server.py:96-129 | Each text that `Replies` yields is what the speaking chat answered to the prompt built from the turns before it. |
| Server.AnswersAreReplies | backend/server.py:96-129 | Any transcript in which every turn answers the one before it is exactly what `Replies` yields. This is the converse of `RepliesAnswer`. |
| Server.AnswersAtPrefix | backend/server.py:110-113 | Whether turn `k` answers depends only on the turns before it. |
| Server.RepliesExtend | backend/server.py:110-121 | One more turn extends a successful transcript by the next call's answer, or fails when that call raises. |
| Server.RepliesStayFailed | backend/server.py:96-129 | Once a call raises, no longer conversation is produced. |
| Server.AnswersStep | backend/server.py:110-121 | Appending the next call's answer keeps every turn answering the one before it. |
| Server.StopsFail | backend/server.py:96-129 | A conversation whose call for turn `m < n` raises yields nothing for `n` turns. |
| Server.Transcript | backend/server.py:99-119 | There is one message per turn. |
| Server.TranscriptStep | backend/server.py:115-119 | Appending a turn appends its message, with the speaker for that turn's parity and the clock reading for that turn. |
| Server.TranscriptAt | backend/server.py:99-129 | Message `k` carries turn `k`'s text and `now(k)`. Its speaker is the first persona's name when `k` is even and the second's when `k` is odd. |
| Server.GeneratedShape | backend/server.py:95-131 | A generated conversation has exactly 8 messages, with speakers alternating and starting with user 1. Message 0 answers the topic's starter from user 1's chat. Every later message is the speaking chat's answer to a prompt quoting the message before it. |
| Server.Alternate | backend/server.py:105-131 | The `for i in range(7)` loop, started from the opener. When no call raises it returns all 8 messages: the `Transcript` of turns that each answer the one before. When a call raises it returns `None`, and every turn before that call answered. |
| Server.GenerateConversation | backend/server.py:72-131 | Chats are keyed "clone_" + user id with the persona prompt. The first user's chat opens on the topic, then the loop runs. The result exists exactly when `Replies` yields 8 turns, and it is their transcript. |
| Server.FirstMatch | backend/server.py:186-189 | `find_one` picks the first stored user the filter matches, or reports that none does. |
| Server.FindOne | backend/server.py:188-189 | `find_one` finds nothing exactly when no stored user matches the filter. Otherwise it returns a stored user that matches. |
| Server.UsernameOrUnknown | backend/server.py:231-237 | The listed name is the username of a stored user with that id when there is one, and "Unknown" otherwise. |
| Server.Annotate | backend/server.py:254-262 | Listing a conversation keeps the stored document as it is; only the participants are added. |
| Server.AnnotateNamesParticipants | backend/server.py:231-237 | A listed participant is the stored user's username when that user exists, and "Unknown" otherwise. |
| Server.Involving | backend/server.py:247-252 | The `$or` query returns exactly the stored conversations whose `user1_id` or `user2_id` is the id. |
| Server.InvolvingAppend | backend/server.py:247-252 | The filter keeps the stored order. |
| Server.Store.constructor | backend/server.py:30-32 | The collections start empty, and the store invariant holds. |
| Server.Store.CreateUser | backend/server.py:140-161 | A taken username inserts nothing and gives 500 caused by the raised 400. Otherwise exactly the given user is appended and its id is returned. Usernames stay unique, and stored conversations keep known participants. |
| Server.Store.GetAllUsers | backend/server.py:163-170 | Returns every stored user in stored order. |
| Server.Store.GetUser | backend/server.py:172-181 | Succeeds exactly when a stored user has the id, and returns that user. Otherwise it gives 500 caused by the raised 404. |
| Server.Store.CreateConversation | backend/server.py:183-221 | A missing user inserts nothing and gives 500 caused by the raised 404. A raising language model inserts nothing and gives 500. Otherwise exactly one document is appended, holding the request's ids, its topic, the generated messages, the supplied id and the supplied time. The reply carries the participants' usernames in request order. It succeeds exactly when the model answers all 8 turns, and it keeps the store invariant. |
| Server.Store.AnnotateAll | backend/server.py:229-237 | Every conversation gets its participants filled in, in order. |
| Server.Store.GetAllConversations | backend/server.py:223-241 | Returns every stored conversation, in order and count, each annotated. |
| Server.Store.GetUserConversations | backend/server.py:243-266 | Returns exactly the conversations that involve the user, in stored order, each annotated. |
| Client.PersonalityForm.WithList | frontend/src/App.js:66-81 | `{...prev, [type]: items}` replaces one list and keeps the other lists and every text field. |
| Client.PersonalityForm.WithText | frontend/src/App.js:330-384 | `{...prev, field: value}` replaces one text field and keeps the rest. |
| Client.TrimGivesTag | frontend/src/App.js:64-68 | A value that does not trim to nothing trims to a tag: non-empty, with no white space at either end. |
| Client.AppendKeepsTags | frontend/src/App.js:66-69 | Appending a tag to a list of tags keeps every entry a tag. |
| Client.Without | frontend/src/App.js:77-82 | `filter((_, i) => i !== index)` gives the list without position `index`, with the rest in order. An out-of-range index leaves it unchanged. |
| Client.WithoutKeepsTags | frontend/src/App.js:77-82 | Removing an entry keeps every remaining entry a tag. |
| Client.RemoveUndoesAdd | frontend/src/App.js:63-82 | Removing the entry just added restores the list. |
| Client.WithoutShortens | frontend/src/App.js:77-82 | Removing at an in-range index shortens the list by exactly one. Any other index keeps its length. |
| Client.OrElse | frontend/src/App.js:97-102 | JavaScript's `s \|\| fallback` on a string keeps a non-empty `s` and replaces the empty string. |
| Client.BuildUser | frontend/src/App.js:92-106 | The posted record has id "user_" followed by the digits of `Date.now()`. Its username and name come from the form and its lists are copied. Style, quirks and background fall back to 'casual and friendly', 'none' and 'general background' when empty. |
| Client.BuiltPersonaIsDescribed | frontend/src/App.js:97-102 | Because of those defaults, a built persona never has an empty style, quirks or background. |
| Client.UserIdsDiffer | frontend/src/App.js:93 | Records built at different milliseconds have different user ids. |
| Client.Rendered | frontend/src/App.js:711-714 | The dispatch renders exactly the four views 'home', 'create', 'explore' and 'conversations'. |
| Client.DashboardShowsNothing | frontend/src/App.js:711-714 | The 'dashboard' view that a successful create switches to renders nothing. |
| Client.Offers | frontend/src/App.js:575 | The button appears only when a user is signed in and the card shows another user. |
| Client.App.constructor | frontend/src/App.js:17-37 | The initial hook values: view 'home', empty caches, no user, not loading, an empty form and empty pending inputs. |
| Client.App.FetchUsers | frontend/src/App.js:45-52 | A successful request replaces the cached users wholesale. A failed one keeps them exactly. |
| Client.App.FetchConversations | frontend/src/App.js:54-61 | A successful request replaces the cached conversations wholesale. A failed one keeps them exactly. |
| Client.App.Mount | frontend/src/App.js:39-43 | The mount effect refreshes both caches under the same rules. |
| Client.App.Navigate | frontend/src/App.js:167-174 | Navigation sets the view. |
| Client.App.EditText | frontend/src/App.js:330-384 | Typing in a text field changes that field only and keeps the tag invariant. |
| Client.App.EditPendingInput | frontend/src/App.js:402-466 | Typing in a pending input changes that input only. |
| Client.App.HandleAddItem | frontend/src/App.js:63-75 | A blank value changes nothing, including the pending input. Otherwise the trimmed value is appended to the named list, the other fields are kept, only that list's pending input is cleared, and the tag invariant is kept. |
| Client.App.AddTag | frontend/src/App.js:66-74 | The two updates of `handleAddItem`: append to one list, then clear its pending input only. |
| Client.App.HandleRemoveItem | frontend/src/App.js:77-82 | The named list becomes `Without(list, index)`, everything else is kept, and so is the tag invariant. |
| Client.App.HandleCreatePersonality | frontend/src/App.js:84-129 | An empty name or username changes no field and alerts. On success: the current user becomes the built record, the users are refetched, the view becomes 'dashboard' and the form is reset, but the pending inputs are not. On failure: only the alert. `loading` ends false in both cases. |
| Client.App.HandleGenerateConversation | frontend/src/App.js:131-148 | Posts the two ids with the topic, which defaults to 'general chat'. On success the conversations are refetched. `loading` ends false in both cases. |
| Client.App.StartConversationWith | frontend/src/App.js:575-579 | The card button is offered only when a user is signed in, the clone is someone else and nothing is loading. It requests a conversation between two different ids on the default topic. On success the conversations are refetched and the success alert is given. On failure the cache is kept and the failure alert is given. `loading` ends false in both cases. |

## Left out

- **Rendering.** JSX markup, styling, icons and UI components are presentation only. The render dispatch is kept as `Rendered`.
- **Network and logging.**
  - axios transport, `API_BASE_URL` and `console.error` are not modelled. Each request's outcome is a parameter instead.
  - The handlers return the alert text instead of showing it.
- **Scheduling.** React's `useEffect` scheduling and the async interleaving of handlers are left out.
  - The `fetchUsers()` that `handleCreatePersonality` starts without awaiting is applied at once. It touches only `users`, so the final state is the same in any order.
  - The same holds for the `fetchConversations()` that `handleGenerateConversation` starts without awaiting (frontend/src/App.js:140). `HandleGenerateConversation` and `StartConversationWith` apply it at once. It touches only `conversations`.
  - The race on `loading` between quick repeated clicks is not modelled.
- **Clocks and identifiers.** `Date.now()`, `toISOString()`, `datetime.now()` and `uuid4()` are parameters and not computed.
- **The language model.**
  - `LlmChat` construction, the API key and the model selection (backend/server.py:56-57, 78-88) are abstracted into the `Chat` value and the `send` function.
  - Any exception from `send_message` is one `None`; its text is not modelled.
- **The error detail.** The 500 detail strings embed `str(e)`. The model keeps the handler's context text and the cause, not the rendered string.
- **Database and framework faults.**
  - MongoDB faults (connection or write errors) are not modelled.
  - Neither is Pydantic request validation (malformed bodies answered with 422 by the framework).
  - Both would make the handlers fail outside the modelled paths.
- **Server.Store.constructor:** the store is modelled from a fresh, empty database; backend/server.py:30-32 only binds handles to persistent collections. The store invariant `Valid()` (unique usernames, known participants, 8 messages per conversation) is therefore established only for data written through these handlers, not for a database filled by other means.
- **Plumbing.** The health-check endpoint, CORS, routing, dotenv and server start-up (backend/server.py:1-32, 136-138, 268-270) are framework plumbing.
- **Client.App.HandleAddItem:** only the three list names the buttons pass are modelled. With any other `type`, `[...prev[type], value.trim()]` does not add a list. An unknown key spreads `undefined` and throws a TypeError. A text-field key such as `'name'` spreads the string and turns the field into an array of its characters plus the new value.
- **Server.Alternate / Server.GenerateConversation:** `current_speaker == chat2` compares two distinct chat objects. The model tracks which chat speaks by its index, so two chats for the same user stay distinct.
