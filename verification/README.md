# Career assistant: chat sessions, accounts and form checks

A Dafny model of the core of the Career assistant web app:

- the chat-session store, which maps a session id to an ordered transcript of `[input, output]` pairs and a `saved` flag;
- the user directory, which maps a username to an account and its list of saved chats;
- the HTTP handlers that read and write them:
  - chat and the five feature forms: assessment, skills, resume, market and learning;
  - save-chat and clear-chat;
  - signup, login and forgot-password;
- the single-process Gradio app in `app.py`;
- the pure checks of the browser script in `static/script.js`.

Every handler is a pure function from the backend state to a `Step`, which holds the reply and the new state. Every serverless file declares its own `sessions` and `users_db` dictionaries; the model treats them as one logical store, `Store.Backend`. The Gradio app keeps one current user and one `saved` flag for the whole process. Its transcript is the chat widget's value, so `GradioApp.AppState` holds only the directory, the user and the flag.

Modules, in dependency order:

- `Maybe`: the option type.
- `Text`: Python's and JavaScript's white-space sets, `strip`/`trim`, and UTF-16 length.
- `Store`: records, lazy initialisation, append, clear, save titles, labels and invariants.
- `Replies`: the error details, and the `Step` and `Generation` types.
- `Endpoints`: the generating handlers of `api/main.py`, of the per-feature files and of `api/index.py`.
- `SaveClear`: save-chat, clear-chat, and the properties that connect them to the chat handlers.
- `Accounts`: signup, login, forgot-password.
- `GradioApp`: the callbacks of `app.py`.
- `Client`: the validators of `static/script.js`, and how they relate to the server's checks.

Two behaviours of the handlers that shape the model:

- A present `session-id` header is used verbatim, even when it is empty; only an absent header gives `"guest"` (`headers.get("session-id", "guest")`).
- The text-generation call is an input of type `Generation`: either the generated text or the message of the exception it raised. Nothing is appended when it raises, because every handler appends after the call returns.

## Model

| member | source | states |
|---|---|---|
| Text.PyBlankIffAllSpace | api/chat.py:32-33 | A message is rejected as blank exactly when every character is one that Python's `strip()` removes, the empty message included |
| Text.WhiteSpaceSetsDiffer | api/chat.py:32 | Python's `isspace` set and JavaScript's `trim`/`\s` set differ exactly in U+001C to U+001F and U+0085, which only Python strips, and U+FEFF, which only JavaScript strips |
| Text.Trim | static/script.js:237 | Trimming returns a slice of the input; everything outside the slice is white space, and the slice neither starts nor ends with white space |
| Text.TrimEmptyIffAllSpace | static/script.js:237-239 | Trimming leaves nothing exactly when the input is all white space |
| Text.Utf16Length | static/script.js:87 | `.length` lies between the character count and twice it, and equals the character count exactly when no character is outside the Basic Multilingual Plane |
| Store.ResolveSessionId | api/main.py:119 | An absent `session-id` header selects the shared "guest" record; a present header, even an empty one, is the id |
| Store.Ensure | api/chat.py:40-41 | Lazy initialisation creates a fresh `{[], saved}` record only when the id is absent, and keeps every existing record |
| Store.EnsureIdempotent | api/main.py:132-133 | Lazy initialisation applied twice is the same as applying it once |
| Store.Append | api/chat.py:40-44 | One successful turn puts the pair after the earlier transcript, marks the session unsaved, keeps the owner and leaves every other session unchanged |
| Store.AppendKeepSaved | api/index.py:124-127 | The index variant puts the pair after the earlier transcript, keeps the owner and leaves other sessions unchanged, but a fresh record stays saved and an existing flag is kept |
| Store.AppendAllHistory | api/chat.py:40-46 | N successful turns on one session leave exactly those N pairs, in order, after the earlier transcript, with other sessions unchanged |
| Store.Clear | api/clear-chat.py:19-21 | An existing record is emptied and marked saved; an absent one is not created; other sessions are unchanged |
| Store.Title | api/save-chat.py:34-36 | The title is the first input when it has at most 30 characters, and otherwise its first 30 characters followed by "..." |
| Store.Labels | api/main.py:114 | One "{timestamp} - {title}" label per saved chat, in save order |
| Store.FindByLabel | app.py:129-135 | Finds the first saved chat with the wanted label, or reports that none has it |
| Store.TransitionsKeepSessionsOk | api/main.py:132-136 | Create, append and index-append all keep "an unsaved record has something to save" |
| Store.ClearKeepsSessionsOk | api/clear-chat.py:19-21 | Clearing keeps that invariant, since a cleared record is saved |
| Endpoints.Check | api/main.py:119-259 | Each form is refused exactly when the source refuses it: a chat message when it is all Python white space, an assessment when some answer is empty, and the skills, resume, market and learning forms when either of their two fields is empty. A refused chat, a refused assessment and a refused two-field form each get their own detail text |
| Endpoints.RecordedInput | api/main.py:168-272 | A chat records its message unchanged; a feature records its own name ("Career Assessment", "Skills Analysis", "Resume Tips", "Market Insights", "Learning Resources") and ": " before its fields |
| Endpoints.FeatureInputsNameTheirFeature | api/main.py:168-272 | Two feature requests of different kinds never record the same input, whatever their fields hold |
| Endpoints.Handle | api/main.py:117-278 | Chat and the five feature forms, as in the combined API and the identical api/chat.py, api/assess.py, api/skills.py, api/resume.py and api/learning.py. The request is validated, then generated, then appended. A refusal or a failed generation leaves the store unchanged. Success lazily creates the record, puts the pair after the prior transcript, marks the session unsaved, keeps the owner a login gave it, and returns the full transcript |
| Endpoints.IndexChat | api/index.py:109-131 | The index chat succeeds exactly for a non-blank message with generated text. It puts the pair after the earlier transcript and keeps the owner, but never marks the session unsaved |
| Endpoints.IndexFeature | api/index.py:133-224 | The index feature handlers run the same presence checks and return only the generated text; the store is neither read nor changed |
| Endpoints.GuestRequestsShareTranscript | api/main.py:119 | Two requests without a header land, in order, in the same guest transcript |
| Endpoints.HandleKeepsSessionsOk | api/main.py:132-136 | The generating handlers keep "an unsaved record has something to save" |
| Endpoints.IndexChatKeepsSessionsOk | api/index.py:124-127 | The index chat keeps that invariant too |
| SaveClear.SaveChat | api/save-chat.py:18-47 | The checks run in order: not logged in (no guest default), nothing to save, already saved. Only a save that succeeds changes anything: exactly one entry goes to the end of that user's list, other users are unchanged, and the session becomes saved |
| SaveClear.SaveIsIdempotent | api/save-chat.py:29-45 | A second save with nothing appended in between answers "Chat already saved" and adds no entry |
| SaveClear.SnapshotIsIsolated | api/save-chat.py:41-45 | The saved entry is a copy: a later turn extends the live transcript but not the saved messages |
| SaveClear.TurnThenSaveSucceeds | api/main.py:132-136 | After a turn through a generating handler, a logged-in user with a chat list can save, and the entry holds the whole transcript |
| SaveClear.IndexChatTurnIsNeverSaved | api/index.py:124-127 | After a first turn through the index chat, the save answers "Chat already saved" and stores nothing |
| SaveClear.ClearChat | api/clear-chat.py:16-22 | The reply is always "Chat cleared!" with an empty history; an existing target is emptied and marked saved; the directory and other sessions are unchanged |
| SaveClear.ClearThenSaveFindsNothing | api/clear-chat.py:19-21 | After a clear, a save of that session answers "No chat to save" |
| SaveClear.SaveKeepsDirectoryOk | api/save-chat.py:34-44 | A save keeps every saved chat non-empty and titled after its own first input |
| SaveClear.SaveAndClearKeepSessionsOk | api/clear-chat.py:19-21 | Save and clear keep "an unsaved record has something to save" |
| Accounts.SignupCheck | api/signup.py:28-35 | The first failing check wins: missing field, then mismatch (an absent confirmation always differs), then fewer than 6 characters, then a taken username. It passes exactly when all hold |
| Accounts.Signup | api/signup.py:26-43 | As in api/signup.py and the identical api/main.py and api/index.py handlers: any failure leaves the directory unchanged, an existing account included. Success adds only the new account: email, password, full name defaulting to the username, and an empty chat list |
| Accounts.LoginCheck | api/login.py:30-34 | Login passes exactly when both credentials are non-empty, the user exists and the password matches; empty credentials are reported first |
| Accounts.Login | api/login.py:28-47 | As in api/login.py and the identical api/main.py handler: a failed login creates no session. Success installs an owned `{[], saved}` record under "{username}_{stamp}", gives an account without a chat list an empty one, and returns one label per saved chat, in order |
| Accounts.IndexLogin | api/index.py:92-107 | The index login installs the same record, leaves the directory untouched and always lists no chats |
| Accounts.ForgotPassword | api/forgot-password.py:20-34 | An empty email is refused. Otherwise the reply is success exactly when some account has that email, and "Email not found" when none has. The directory is never changed |
| Accounts.SignupThenLogin | api/login.py:33-47 | Credentials that signed up successfully log in, list no saved chats, and open a session owned by that user |
| Accounts.SignupThenIndexLogin | api/index.py:92-107 | Signed-up credentials also log in through the index login, which installs an owned, empty, saved record, lists no chats and leaves the directory alone |
| Accounts.LoginsKeepSessionsOk | api/login.py:36-41 | Both logins install a saved, empty record, so "an unsaved record has something to save" survives them |
| Accounts.SignupRegistersEmail | api/forgot-password.py:25-29 | A successful signup makes its email findable by the reset lookup; a failed one changes no lookup result |
| Accounts.AccountsKeepDirectoryOk | api/login.py:43-44 | Signup and login keep every saved chat well formed |
| GradioApp.AddToHistory | app.py:141-144 | The pair goes last, every earlier pair stays in place, and the session becomes unsaved |
| GradioApp.ChatWithAi | app.py:22-34 | A whitespace-only message changes nothing. Otherwise exactly one pair is added, holding the reply or "Error: ..." |
| GradioApp.Feature | app.py:147-230 | A missing field is answered with its message and nothing changes. Otherwise one pair with the feature's template input is added, holding the reply or the error text |
| GradioApp.Signup | app.py:43-58 | The same ordered checks as the handlers; the new account has neither a full name nor a chat list |
| GradioApp.ChatHistoryList | app.py:109-117 | One label per saved chat, in order; none when logged out or when the account has no list |
| GradioApp.Login | app.py:60-72 | A failure shows the error in guest mode and changes nothing; success makes the user current and lists their chats |
| GradioApp.SaveCurrentChat | app.py:80-107 | The checks run in order: not logged in, empty widget, already saved. A save appends one entry holding the widget's transcript, creating the list if needed, and marks the session saved |
| GradioApp.LoadChatHistory | app.py:119-135 | Returns the messages of the first chat whose label is the selection; otherwise it explains why: logged out, nothing selected, no history, or "Chat not found" |
| GradioApp.SaveIsIdempotent | app.py:85-106 | A second save without a new turn answers "Chat already saved" and adds nothing |
| GradioApp.SaveThenLoad | app.py:105-133 | A saved chat's label is listed last, and loading that label returns the saved transcript unless an earlier chat has the same label |
| GradioApp.CallbacksKeepValid | app.py:60-77 | The current user is always an existing account |
| GradioApp.SaveKeepsDirectoryOk | app.py:92-105 | A save keeps every saved chat non-empty and titled after its own first input |
| GradioApp.ChatTurnThenSaveStoresWidget | app.py:22-34 | After a non-blank message, a logged-in user's save succeeds and stores the widget as it stands, including the "Error: ..." pair a failed generation leaves |
| GradioApp.FeatureTurnThenSaveStoresWidget | app.py:147-170 | After a feature form passes its check, the save succeeds and stores the widget, whose last input is the feature's template |
| GradioApp.ClearThenReloadSavesTwice | app.py:39-40 | Clearing the widget leaves the state as it was, `saved` included. So after an unsaved turn, clear, then load an earlier chat, then save stores that chat's messages a second time |
| GradioApp.NewChatThenReloadIsAlreadySaved | app.py:137-139 | Starting a new chat marks the session saved, so the same load-then-save answers "Chat already saved" and changes nothing |
| GradioApp.NewChatLeavesNothingToSave | app.py:137-139 | After a new chat the widget is empty, and an immediate save answers "No chat to save" |
| GradioApp.LogoutLocksHistory | app.py:74-77 | After logout the directory is unchanged, but save, load and the chat list all answer as for a guest: not logged in, "Please login to load chats", no labels |
| Client.IndexOf | static/script.js:82 | Finds the first occurrence of a character, or reports that there is none |
| Client.ValidateEmail | static/script.js:81-84 | An address is accepted exactly when it matches the pattern: no white space, exactly one '@' with something before it, and a '.' after it that is not next to the '@' and not last |
| Client.EmailSplitMatchesPattern | static/script.js:81-84 | Splitting at the first '@' accepts exactly the strings of the pattern, in both directions |
| Client.CountFive | static/script.js:93 | Counting the five flags that hold is adding their indicators |
| Client.ValidatePassword | static/script.js:86-95 | The score is the number of the five criteria that hold. `minLength` means at least 8 code units. Each other criterion holds exactly when some character is in its class: an ASCII upper-case letter, a lower-case letter, a digit, or one of the listed punctuation marks |
| Client.PasswordStrength | static/script.js:97-115 | No band for an empty field; otherwise weak below 3, medium at 3 or 4, strong only when all five criteria hold |
| Client.ValidateName | static/script.js:117-119 | A name is accepted exactly when it has at least 2 characters and all of them are ASCII letters or white space |
| Client.SignupForm | static/script.js:122-159 | Only the first problem is reported, in the order name, username under 3, email, password under 8, score under 3, then mismatch; each is pinned to its own message, and the form is sent exactly when all pass |
| Client.AcceptedPasswordIsNotWeak | static/script.js:145-154 | A password the form accepts is shown as medium or strong |
| Client.AcceptedFormPassesServerChecks | api/signup.py:28-35 | A form the client accepts passes every server signup check except the duplicate-username one, as long as its password is all in the Basic Multilingual Plane |
| Client.AstralPasswordPassesClientOnly | static/script.js:87 | Without that condition the two disagree: "A1" followed by three emoji passes the client's checks but is too short for the server |
| Client.AstralPasswordFailsServer | api/signup.py:32-33 | That five-character password is refused by the server as shorter than 6 |
| Client.SendMessage | static/script.js:235-239 | Nothing is sent exactly when the input is all JavaScript white space; otherwise the trimmed text is sent, with no white space at either end |
| Client.SentMessageIsNotBlankOnServer | static/script.js:237-239 | A message the client sends passes the server's blank check, unless the characters that decide it are ones only Python strips |
| Client.ClientAndServerBlankDiffer | api/chat.py:32-33 | U+001C is sent by the client and refused by the server as blank |

## Left out

- The text-generation calls, their prompts and the API-key setup. The outcome of a call is an input (`Generated` or `Raised`). When `api/main.py` has no key, it raises inside its own `try`, so the detail becomes "Error: " followed by the framework's text for that exception; this is folded into `Raised`.
- HTTP framework plumbing: CORS, routing, request parsing, and the status code of each error (400 for a refused request, 500 for a failed generation or an uncaught lookup error).
- Wall-clock timestamps. The save time and the login session-id suffix are parameters.
- Each serverless file's separate dictionaries, and concurrency between requests. The model has one logical store and runs one request at a time.
- `api/contact.py` and the contact endpoints of `api/main.py` and `api/index.py`. They answer a constant after a four-field presence check and touch no state.
- Gradio interface construction (app.py:233-348), `show_loading`, and the visibility updates that callbacks return. The dropdown's `None` value for an unselected radio is folded into the empty string.
- The unused `"chats": []` key that `app.py` signup stores. It is never read; its accounts are modelled without a chat list.
- `api/save-chat.py` on an account without a `chat_history` list: the append raises `KeyError`. The model answers `MissingChatList` with the framework's generic 500 text and changes nothing.
- Everything in `static/script.js` beyond the validators and the send guard: the DOM, fetch calls, modals, timers and scrolling.
- Client.ValidateEmail: the regular expression is modelled as the shape it describes, not by a regular-expression engine. JavaScript matches `[^\s@]` per UTF-16 code unit, which gives the same verdict for every character the model can hold.
- Client.AcceptedFormPassesServerChecks: restricted to passwords inside the Basic Multilingual Plane, because the client counts code units and the server counts characters. `Client.AstralPasswordPassesClientOnly` shows what happens otherwise.

## Findings

| source | as written | input that shows it | evidently intended | confidence | as-written member | corrected member |
|---|---|---|---|---|---|---|
| api/index.py:124-127 | The chat appends the pair but never sets `saved` to False, so a record it creates stays marked saved | A first chat "hi" under session id "s1", then a save of "s1" by a logged-in user: the save answers "Chat already saved" and stores nothing | Mark the session unsaved after the append, as api/main.py:136 and api/chat.py:44 do, so the turn can be saved | medium, not executed | SaveClear.IndexChatTurnIsNeverSaved | SaveClear.TurnThenSaveSucceeds |
