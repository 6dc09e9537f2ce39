# oxidized-gpt: the conversation-session state machine

A model of the core of a desktop chat client for an OpenAI-style chat
completion API, with the drawing code removed. The window (`App` in
`src/app.rs`) owns:

- `conversation`: an optional session shared with a background task, a
  conversation behind an asynchronous mutex;
- `history`: the view log that the window renders;
- `current_role` and `pmt`: the selected persona and the prompt being typed.

Each frame, the window polls the session with a non-blocking try-lock and
copies committed history into the view. Pressing Enter spawns a task that
takes the lock, sends the prompt and, on failure, records the error as a
System message.

Files and modules:

- `settings.dfy`, module `Settings` (`src/settings.rs`): `Role` and
  `Settings` as values, the default settings, and the facts about them.
- `chat.dfy`, module `Chat`: the client library's message type (`Role`
  System/User/Assistant, `ChatMessage`) and `Last`, which is `Vec::last`.
- `text.dfy`, module `Text`: Rust's `str::trim` (Unicode White_Space) and
  `str::len` (UTF-8 bytes), which the submission guard uses.
- `app.dfy`, module `AppCore` (`src/app.rs`):
  - the class `Conversation`, whose `locked` flag stands for the mutex;
  - the class `SubmitTask`, the spawned `submit_prompt` task. It has two
    explicit steps: `Acquire` (the lock is taken iff it is free) and
    `Complete` (apply the send outcome, then release the lock);
  - the class `App` with its operations;
  - the specification functions `SyncWanted` and `Visible`, with lemmas
    about them.
- `scenarios.dfy`, module `Scenarios`: schedules that interleave frames
  and task steps, with what the window observes in each.
- `wrappers.dfy`: `Option`.

I/O and foreign code become parameters:

- The settings loaded at start-up are a constructor argument.
- "Enter pressed while focused" is a boolean.
- A clicked menu entry or delete button is an `Option<nat>` index.
- The backend's reply is an abstract `SendOutcome`: the messages the send
  appended, plus the rendered error on failure.

Three details of the code the model keeps:

- Role equality compares `icon_base64` as well as name and prompt
  (`src/settings.rs:10`).
- The User message of a submission is pushed onto the view by the window
  thread, not by the task (`src/app.rs:336-339`). The task adds to the
  session only what the client library's send adds, plus the System error
  record on failure.
- The transcript hides every System message whose text equals the current
  role's prompt, not only the seed.

## Model

| member | source | states |
|---|---|---|
| `Settings.Default` | src/settings.rs:18-48 | the settings used without a configuration file; their role list is non-empty |
| `Settings.RoleEquality` | src/settings.rs:10-15 | two roles are equal iff name, prompt and icon are all equal |
| `Settings.SameNameOtherPromptDistinct` | src/settings.rs:10-15 | roles with the same name but different prompts are distinct |
| `Settings.DefaultRoleListNonEmpty` | src/settings.rs:23-46 | the default role list has four entries, so the first-role lookup at start-up is total |
| `Settings.DefaultRoles` | src/settings.rs:24-45 | default roles in the order XXXGPT, ChatGPT, Translator, Last; each has an empty icon; they are pairwise distinct |
| `Settings.DefaultEndpoint` | src/settings.rs:21-22 | default API key is empty; default URL is the OpenAI chat completions endpoint |
| `Text.Trim` | src/app.rs:330 | `str::trim`; the result is never longer than the input (its exact shape is `Text.TrimShape`) |
| `Text.Utf8Len` | src/app.rs:330 | `str::len` in UTF-8 bytes; it is zero exactly for the empty string |
| `Text.Submittable` | src/app.rs:330 | the guard `pmt.trim().len() > 1`; a submittable prompt is never blank after trimming |
| `Text.Utf8LenBounds` | src/app.rs:330 | the byte length of a string lies between its character count and four times that |
| `Text.TrimStartShape` | src/app.rs:330 | trimming the start removes exactly a whitespace-only prefix, up to the first other character |
| `Text.TrimEndShape` | src/app.rs:330 | trimming the end removes exactly a whitespace-only suffix, back to the last other character |
| `Text.TrimShape` | src/app.rs:338 | the trimmed prompt is a contiguous slice of the input, with only whitespace outside it and no whitespace at either end |
| `Text.TrimIdempotent` | src/app.rs:338 | trimming the trimmed prompt changes nothing |
| `Text.TrimEmptyIff` | src/app.rs:330 | the trimmed prompt is empty iff the input is all whitespace |
| `Text.SubmittableIff` | src/app.rs:330 | the guard `trim().len() > 1` holds iff the trimmed text has two or more characters, or is a single non-ASCII character |
| `Chat.Last` | src/app.rs:119 | `Vec::last`: None exactly for an empty log |
| `AppCore.SyncWanted` | src/app.rs:118-119 | the reconciliation test; when it holds, the session history is non-empty and differs from the view |
| `AppCore.Hidden` | src/app.rs:149-153 | a message is hidden iff it is exactly the System message carrying the role prompt |
| `AppCore.Visible` | src/app.rs:149-153 | the drawn messages: no more than the history holds, and none of them hidden |
| `AppCore.SyncNeverShortens` | src/app.rs:118-121 | when reconciliation replaces the view, the new view is at least as long and differs from the old one |
| `AppCore.SyncIdempotent` | src/app.rs:118-122 | a view equal to the session history is not replaced again |
| `AppCore.PendingViewKept` | src/app.rs:113-119 | a view longer than the session history, e.g. one with a locally pushed User message, is kept |
| `AppCore.CorrectedAgreesOffEqualLength` | src/app.rs:118-119 | the corrected rule decides as the original one whenever the lengths differ |
| `AppCore.CorrectedKeepsPending` | src/app.rs:113-119 | under the corrected rule, a view is never replaced by a history that is not strictly longer |
| `AppCore.VisibleMembership` | src/app.rs:147-153 | a message is drawn iff it is in the history and is not the System message equal to the role prompt |
| `AppCore.VisibleAppend` | src/app.rs:147-153 | the filter works message by message and keeps order: filtering `a + b` gives the filtered `a` followed by the filtered `b` |
| `AppCore.VisibleKeepsAll` | src/app.rs:147-153 | a history with no hidden message is drawn unchanged |
| `AppCore.RenderedTranscript` | src/app.rs:147-153 | the render loop draws exactly `Visible(history, prompt)`: User, Assistant and other System messages, in order |
| `AppCore.Conversation.constructor` | src/app.rs:76-90 | a new session holds the key and URL, is seeded with the role prompt as one System message, and is unlocked |
| `AppCore.SubmitTask.constructor` | src/app.rs:341-345 | the spawned task holds the session and the trimmed prompt; it has not taken the lock yet |
| `AppCore.SubmitTask.Acquire` | src/app.rs:407 | a waiting task takes the lock iff it is free; otherwise it keeps waiting; the history is untouched |
| `AppCore.SubmitTask.Complete` | src/app.rs:407-415 | the send's additions stay; on failure exactly one System message with the error follows them; earlier entries are unchanged; the lock is released |
| `AppCore.App.constructor` | src/app.rs:36-74 | start-up selects the first role; there is no session, the prompt is empty and the view log is empty |
| `AppCore.App.CreateConversation` | src/app.rs:76-90 | a fresh unlocked session for the current role's prompt, with the configured key and URL |
| `AppCore.App.RenderRoleList` | src/app.rs:92-111 | clicking a role other than the current one makes it current, drops the session and clears the view; clicking the current role, or no role, changes nothing |
| `AppCore.App.SyncNewMessage` | src/app.rs:114-129 | returns false and changes nothing when there is no session or it is locked; otherwise returns true iff the view is not longer than the session and the last messages differ, and exactly then the view becomes the session history |
| `AppCore.App.Reconcile` | src/app.rs:114-129 | the body of `sync_new_message` under either rule: false and no change without a session or while it is locked; otherwise true iff the rule wants it, and exactly then the view becomes the session history (the strict rule is the corrected one, see Findings) |
| `AppCore.App.Busy` | src/app.rs:292-295 | "waiting for the AI": a session exists and its lock is held |
| `AppCore.App.RenderSpinnerIfNecessary` | src/app.rs:289-295 | the busy check is true iff a session exists and its lock is held; it changes nothing |
| `AppCore.App.SubmitOnEnter` | src/app.rs:327-347 | fires iff Enter is pressed and the trimmed prompt is over one byte. It then reuses the session or creates one (unlocked, seeded with the role prompt, carrying the configured key and URL), appends `User(trim(pmt))` to the view, spawns a task on that session with the trimmed prompt, and clears the prompt. Otherwise nothing changes |
| `AppCore.App.Reset` | src/app.rs:188-193 | the delete button on an Assistant message (and on a User message, lines 238-243) clears the view and drops the session; role, prompt and settings are kept |
| `AppCore.App.RenderHistoryMessages` | src/app.rs:141-277 | one frame: the auto-scroll flag is the reconciliation result; the frame draws `Visible` of the reconciled view; a delete click on a User or Assistant message resets |
| `Scenarios.ExchangeWithReply` | src/app.rs:400-416 | in a successful exchange the spinner shows only while the task holds the lock, and reconciliation waits meanwhile. Afterwards it brings in exactly User and Assistant once; a second pass does nothing |
| `Scenarios.FailedExchange` | src/app.rs:408-414 | in a failed exchange the view ends with one System message holding the error, drawn unless it equals the role prompt |
| `Scenarios.FirstPromptDroppedAsWritten` | src/app.rs:113-122 | first prompt of a fresh session, frame before the task locks: the view is replaced by the hidden seed and the user's message is not drawn |
| `Scenarios.FirstPromptKeptCorrected` | src/app.rs:113-122 | the same schedule under the corrected rule keeps the user's message, and still brings in the reply afterwards |
| `Scenarios.OrphanedTaskUnobserved` | src/app.rs:100-103 | a role switch while the task runs empties the view. The task still completes on the old session, and the window never observes it |
| `Scenarios.ReconcileTwice` | src/app.rs:114-129 | from any state, a second reconciliation right after the first returns false and leaves the view as the first left it |
| `Scenarios.SecondSubmissionWhileBusy` | src/app.rs:315-347 | the spinner does not stop input: a second submission while busy spawns a second task on the same session, and that task waits |

## Findings

| source | as written | input that shows it | evidently intended | confidence | as-written member | corrected member |
|---|---|---|---|---|---|---|
| src/app.rs:118 | the view is replaced when `history.len() <= conversation.history.len()` and the last messages differ | a first prompt in a fresh session, with a frame drawn before the task takes the lock. The view is `[User(t)]` and the session is its seed `[System(prompt)]`: equal lengths, different last messages | the comment at line 113 says reconciliation exists so that messages do not disappear before the reply; a strict `<` keeps the pending message | medium, not executed; it depends on the client library seeding a directed conversation with one System message | `Scenarios.FirstPromptDroppedAsWritten` | `Scenarios.FirstPromptKeptCorrected` |

The window's `SyncNewMessage` keeps the rule as written, because it models
the program. `SyncWantedCorrected` and `Reconcile(StrictLength)` give the
corrected rule. The lemmas show it differs only at equal lengths, and the
corrected scenario shows it still delivers replies.

## Left out

- AppCore.App.constructor: the panic of `role_list.get(0).unwrap()` at
  start-up, when the loaded configuration has an empty role list, is
  modelled as the precondition `|settings.roleList| > 0`.
  `Settings.DefaultRoleListNonEmpty` shows that the default settings meet it.

- All egui/eframe drawing: layouts, icons, labels, separators, scroll-to-me
  (only its trigger is modelled, as the flag returned by
  `RenderHistoryMessages`), the spinner widget, focus, the side-panel
  toggle, copy-on-click and toasts. These are presentation.
- `src/main.rs` (fonts, window start-up) is not part of this model.
- Loading and storing the configuration file (`confy::load`,
  `confy::store`). This is file I/O; the loaded settings are a constructor
  argument.
- The side panel's API-key and URL text fields. `settings` never changes in
  the model.
- Typing into the prompt box is UI; the scenarios assign `pmt` directly.
- The chat-completion client library is foreign code. Its send is the
  abstract `SendOutcome`.
- `AppCore.Conversation.constructor`: takes `new_conversation_directed` to
  seed the history with exactly one System message holding the prompt. The
  library is not modelled, so this is an assumption.
- The model configuration (temperature 1.0, the GPT-3.5 Turbo engine, the
  leaked `'static` URL string) and the unwraps on the library's builder.
  These are foreign calls and floating point.
- Tokio. The mutex is a flag, and `tokio::spawn` creates a `SubmitTask`
  object. The blocking `lock().await` is repeated `Acquire` attempts.
- The try-locks in reconciliation and in the busy check take and release
  the guard within one frame. They are modelled as a read of the flag,
  with no state change.
- `request_repaint` is not modelled. The caller of the frame methods stands
  for the repaint.
- The error's Debug rendering is an opaque string. The `println!` logging
  is output only.
