/**
 * The conversation-session state machine of the chat window (src/app.rs),
 * with the drawing stripped away.
 *
 * The application owns an optional shared session (a conversation behind
 * an asynchronous mutex), a local view log that the window renders, the
 * selected role and the prompt being typed. A submission spawns a
 * background task; the redraw loop polls the session without blocking and
 * copies committed history into the view.
 *
 * The mutex is the `locked` flag of a `Conversation`. The background task
 * is a `SubmitTask` object that takes two explicit steps: acquiring the
 * lock, and completing (with the backend's outcome) and releasing it.
 */
module AppCore {
  import opened Wrappers
  import opened Chat
  import opened Text
  import Settings

  // ---------------------------------------------------------------------
  // Specification functions
  // ---------------------------------------------------------------------

  /** The history a directed conversation starts with: the role's prompt as
      a single System message. */
  function DirectedSeed(prompt: string): seq<ChatMessage> {
    [ChatMessage(System, prompt)]
  }

  /** Whether reconciliation replaces the view by the session history: the
      view is not longer than the session and their last messages differ. */
  predicate SyncWanted(view: seq<ChatMessage>, session: seq<ChatMessage>)
    ensures SyncWanted(view, session) ==> session != [] && view != session
  {
    |view| <= |session| && Last(view) != Last(session)
  }

  /** The reconciliation rule with the length comparison made strict, so
      that a view holding a message the session has not committed yet is
      never replaced by an equally long session history. */
  predicate SyncWantedCorrected(view: seq<ChatMessage>, session: seq<ChatMessage>) {
    |view| < |session| && Last(view) != Last(session)
  }

  /** The two reconciliation rules: as the window applies it, and with the
      strict length comparison. */
  datatype SyncRule = AsWritten | StrictLength

  predicate Wants(rule: SyncRule, view: seq<ChatMessage>, session: seq<ChatMessage>) {
    match rule
    case AsWritten => SyncWanted(view, session)
    case StrictLength => SyncWantedCorrected(view, session)
  }

  /** A message the transcript does not show: the System message carrying
      the current role's prompt. */
  predicate Hidden(m: ChatMessage, prompt: string)
    ensures Hidden(m, prompt) <==> m == ChatMessage(System, prompt)
  {
    m.role == System && m.content == prompt
  }

  /** The messages of `history` the transcript shows, in order. */
  function Visible(history: seq<ChatMessage>, prompt: string): (shown: seq<ChatMessage>)
    ensures |shown| <= |history|
    ensures forall i | 0 <= i < |shown| :: !Hidden(shown[i], prompt)
  {
    if history == [] then []
    else
      var m := history[|history| - 1];
      var rest := Visible(history[..|history| - 1], prompt);
      if Hidden(m, prompt) then rest else rest + [m]
  }

  // ---------------------------------------------------------------------
  // Properties of reconciliation
  // ---------------------------------------------------------------------

  /** Reconciliation only ever replaces the view by a history at least as
      long: it never shortens the view log. */
  lemma SyncNeverShortens(view: seq<ChatMessage>, session: seq<ChatMessage>)
    requires SyncWanted(view, session)
    ensures |session| >= |view|
    ensures session != view
  {
  }

  /** Once the view equals the session history, a second reconciliation
      with nothing changed in between does nothing. */
  lemma SyncIdempotent(session: seq<ChatMessage>)
    ensures !SyncWanted(session, session)
  {
  }

  /** A view that is longer than the session history, such as one holding a
      locally appended User message the task has not committed yet, is kept. */
  lemma PendingViewKept(view: seq<ChatMessage>, session: seq<ChatMessage>)
    requires |view| > |session|
    ensures !SyncWanted(view, session)
  {
  }

  /** The corrected rule agrees with the original except when the view and
      the session have the same length. */
  lemma CorrectedAgreesOffEqualLength(view: seq<ChatMessage>, session: seq<ChatMessage>)
    requires |view| != |session|
    ensures SyncWantedCorrected(view, session) == SyncWanted(view, session)
  {
  }

  /** Under the corrected rule a view is never replaced by a session history
      that is not strictly longer, so no locally appended message is dropped
      before the session grows past it. */
  lemma CorrectedKeepsPending(view: seq<ChatMessage>, session: seq<ChatMessage>)
    requires |view| >= |session|
    ensures !SyncWantedCorrected(view, session)
  {
  }

  // ---------------------------------------------------------------------
  // Properties of the transcript filter
  // ---------------------------------------------------------------------

  /** A message is shown exactly when it is in the history and not the
      hidden role prompt. */
  lemma {:induction false} VisibleMembership(history: seq<ChatMessage>, prompt: string, m: ChatMessage)
    ensures m in Visible(history, prompt) <==> (m in history && !Hidden(m, prompt))
  {
    if history != [] {
      var init := history[..|history| - 1];
      VisibleMembership(init, prompt, m);
      assert history == init + [history[|history| - 1]];
    }
  }

  /** The filter works message by message and keeps order: filtering a
      concatenation is concatenating the filtered parts. */
  lemma {:induction false} VisibleAppend(a: seq<ChatMessage>, b: seq<ChatMessage>, prompt: string)
    ensures Visible(a + b, prompt) == Visible(a, prompt) + Visible(b, prompt)
  {
    if b == [] {
      assert a + b == a;
    } else {
      var init := b[..|b| - 1];
      VisibleAppend(a, init, prompt);
      assert (a + b)[..|a + b| - 1] == a + init;
      assert (a + b)[|a + b| - 1] == b[|b| - 1];
    }
  }

  /** A history without the hidden prompt is shown unchanged. */
  lemma {:induction false} VisibleKeepsAll(history: seq<ChatMessage>, prompt: string)
    requires forall i | 0 <= i < |history| :: !Hidden(history[i], prompt)
    ensures Visible(history, prompt) == history
  {
    if history != [] {
      var init := history[..|history| - 1];
      VisibleKeepsAll(init, prompt);
    }
  }

  /** The render loop of the transcript: walks the history and collects the
      messages it draws, skipping the System message that carries the
      role's prompt. */
  method RenderedTranscript(history: seq<ChatMessage>, prompt: string) returns (shown: seq<ChatMessage>)
    ensures shown == Visible(history, prompt)
  {
    shown := [];
    for i := 0 to |history|
      invariant shown == Visible(history[..i], prompt)
    {
      var msg := history[i];
      assert history[..i + 1][..i] == history[..i];
      match msg.role {
        case System =>
          if msg.content == prompt {
            continue;
          }
          shown := shown + [msg];
        case Assistant =>
          shown := shown + [msg];
        case User =>
          shown := shown + [msg];
      }
    }
    assert history[..|history|] == history;
  }

  // ---------------------------------------------------------------------
  // The shared session and the background task
  // ---------------------------------------------------------------------

  /** What the backend call left behind: on success, the messages it
      appended to the conversation; on failure, the messages it appended
      before failing and the rendered error. */
  datatype SendOutcome =
    | Sent(appended: seq<ChatMessage>)
    | Failed(appended: seq<ChatMessage>, error: string)

  /** A conversation behind its mutex. `locked` is set while a task holds
      the guard. */
  class Conversation {
    const apiKey: string
    const apiUrl: string
    var history: seq<ChatMessage>
    var locked: bool

    /** A new directed conversation for the given role prompt, unlocked. */
    constructor (apiKey: string, apiUrl: string, prompt: string)
      ensures this.apiKey == apiKey && this.apiUrl == apiUrl
      ensures history == DirectedSeed(prompt) && !locked
    {
      this.apiKey := apiKey;
      this.apiUrl := apiUrl;
      history := DirectedSeed(prompt);
      locked := false;
    }
  }

  datatype TaskPhase = Waiting | Holding | Finished

  /** The spawned `submit_prompt` task for one prompt and one conversation. */
  class SubmitTask {
    const conversation: Conversation
    const prompt: string
    var phase: TaskPhase

    constructor (conversation: Conversation, prompt: string)
      ensures this.conversation == conversation && this.prompt == prompt
      ensures phase == Waiting
    {
      this.conversation := conversation;
      this.prompt := prompt;
      phase := Waiting;
    }

    /** One attempt of the blocking `lock().await`: the waiting task takes
        the lock if it is free and otherwise keeps waiting. */
    method Acquire() returns (acquired: bool)
      modifies this, conversation
      ensures acquired == (old(phase) == Waiting && !old(conversation.locked))
      ensures conversation.history == old(conversation.history)
      ensures if acquired then phase == Holding && conversation.locked
              else phase == old(phase) && conversation.locked == old(conversation.locked)
    {
      acquired := phase == Waiting && !conversation.locked;
      if acquired {
        conversation.locked := true;
        phase := Holding;
      }
    }

    /** The send returns while the task holds the lock. The backend's own
        additions stay; on failure the task appends one System message
        with the error; then the guard is released. */
    method Complete(outcome: SendOutcome)
      requires phase == Holding && conversation.locked
      modifies this, conversation
      ensures phase == Finished && !conversation.locked
      ensures outcome.Sent? ==> conversation.history == old(conversation.history) + outcome.appended
      ensures outcome.Failed? ==>
        conversation.history == old(conversation.history) + outcome.appended + [ChatMessage(System, outcome.error)]
    {
      conversation.history := conversation.history + outcome.appended;
      if outcome.Failed? {
        conversation.history := conversation.history + [ChatMessage(System, outcome.error)];
      }
      conversation.locked := false;
      phase := Finished;
    }
  }

  // ---------------------------------------------------------------------
  // The application state
  // ---------------------------------------------------------------------

  class App {
    var conversation: Conversation?
    var pmt: string
    var history: seq<ChatMessage>
    var settings: Settings.Settings
    var currentRole: Settings.Role

    /** Start-up with the loaded settings; the first role is selected, which
        needs a non-empty role list. */
    constructor (settings: Settings.Settings)
      requires |settings.roleList| > 0
      ensures this.settings == settings && currentRole == settings.roleList[0]
      ensures conversation == null && pmt == "" && history == []
    {
      this.settings := settings;
      currentRole := settings.roleList[0];
      conversation := null;
      pmt := "";
      history := [];
    }

    /** A new conversation directed by the current role's prompt, with the
        configured key and endpoint. */
    method CreateConversation() returns (c: Conversation)
      ensures fresh(c) && !c.locked
      ensures c.history == DirectedSeed(currentRole.prompt)
      ensures c.apiKey == settings.apiKey && c.apiUrl == settings.apiUrl
    {
      c := new Conversation(settings.apiKey, settings.apiUrl, currentRole.prompt);
    }

    /** The role menu: walks the role list; when the clicked entry is not the
        current role it becomes current, the session is dropped and the view
        log is cleared. Clicking the current role changes nothing. */
    method RenderRoleList(clicked: Option<nat>)
      modifies this
      ensures settings == old(settings) && pmt == old(pmt)
      ensures
        if clicked.Some? && clicked.value < |settings.roleList| && settings.roleList[clicked.value] != old(currentRole)
        then currentRole == settings.roleList[clicked.value] && conversation == null && history == []
        else currentRole == old(currentRole) && conversation == old(conversation) && history == old(history)
    {
      for i := 0 to |settings.roleList|
        invariant settings == old(settings) && pmt == old(pmt)
        invariant
          if clicked.Some? && clicked.value < i && settings.roleList[clicked.value] != old(currentRole)
          then currentRole == settings.roleList[clicked.value] && conversation == null && history == []
          else currentRole == old(currentRole) && conversation == old(conversation) && history == old(history)
      {
        var role := settings.roleList[i];
        var isCurrentRole := role == currentRole;
        if clicked == Some(i) {
          if !isCurrentRole {
            currentRole := role;
            conversation := null;
            history := [];
          }
        }
      }
    }

    /** "Waiting for the AI": a session exists and a task holds its lock. */
    predicate Busy()
      reads this, conversation
      ensures Busy() ==> conversation != null
    {
      conversation != null && conversation.locked
    }

    /** Non-blocking reconciliation under a given rule. Without a session,
        or while a task holds its lock, nothing happens. Otherwise the view
        becomes the session history exactly when the rule wants it, and the
        result says so. */
    method Reconcile(rule: SyncRule) returns (synced: bool)
      modifies this
      ensures synced == (old(conversation) != null && !old(conversation.locked) &&
                         Wants(rule, old(history), old(conversation.history)))
      ensures conversation == old(conversation) && pmt == old(pmt)
      ensures history == if synced then conversation.history else old(history)
      ensures currentRole == old(currentRole) && settings == old(settings)
    {
      synced := conversation != null && !Busy() && Wants(rule, history, conversation.history);
      if synced {
        history := conversation.history;
      }
    }

    /** `sync_new_message`: reconciliation under the rule as written. */
    method SyncNewMessage() returns (synced: bool)
      modifies this
      ensures synced == (old(conversation) != null && !old(conversation.locked) &&
                         SyncWanted(old(history), old(conversation.history)))
      ensures conversation == old(conversation) && pmt == old(pmt)
      ensures history == if synced then conversation.history else old(history)
      ensures currentRole == old(currentRole) && settings == old(settings)
    {
      synced := Reconcile(AsWritten);
    }

    /** The spinner check: a try-lock on the session whose guard is dropped
        at once, so it changes no state. */
    method RenderSpinnerIfNecessary() returns (isWaitingForAi: bool)
      ensures isWaitingForAi == Busy()
    {
      isWaitingForAi := Busy();
    }

    /** Enter in the prompt box (`enterPressed` stands for focus and the key
        press). When the trimmed prompt is longer than one byte: a session is
        created if there is none, the trimmed prompt is appended to the view
        as a User message, a task for it is spawned and the prompt box is
        cleared. Otherwise nothing changes. */
    method SubmitOnEnter(enterPressed: bool) returns (task: SubmitTask?)
      modifies this
      ensures settings == old(settings) && currentRole == old(currentRole)
      ensures
        if enterPressed && Submittable(old(pmt)) then
          conversation != null &&
          (old(conversation) != null ==> conversation == old(conversation)) &&
          (old(conversation) == null ==>
             fresh(conversation) && !conversation.locked &&
             conversation.history == DirectedSeed(currentRole.prompt) &&
             conversation.apiKey == settings.apiKey && conversation.apiUrl == settings.apiUrl) &&
          history == old(history) + [ChatMessage(User, Trim(old(pmt)))] &&
          pmt == "" &&
          task != null && fresh(task) && task.phase == Waiting &&
          task.conversation == conversation && task.prompt == Trim(old(pmt))
        else
          task == null && conversation == old(conversation) &&
          history == old(history) && pmt == old(pmt)
    {
      task := null;
      if enterPressed && Submittable(pmt) {
        if conversation == null {
          conversation := CreateConversation();
        }
        history := history + [ChatMessage(User, Trim(pmt))];
        task := new SubmitTask(conversation, Trim(pmt));
        pmt := "";
      }
    }

    /** The delete button on a User or Assistant message: drops the session
        and clears the view log, keeping the selected role. */
    method Reset()
      modifies this
      ensures history == [] && conversation == null
      ensures currentRole == old(currentRole) && settings == old(settings) && pmt == old(pmt)
    {
      history := [];
      conversation := null;
    }

    /** One frame of the transcript: reconcile (the result drives
        auto-scroll), draw the visible messages of the view as it then is,
        and handle a click on the delete button of message `deleteClicked`
        (User and Assistant messages have one, System messages do not). The
        frame draws the view it started from even when the click resets. */
    method RenderHistoryMessages(deleteClicked: Option<nat>) returns (needScroll: bool, shown: seq<ChatMessage>)
      modifies this
      ensures needScroll == (old(conversation) != null && !old(conversation.locked) &&
                             SyncWanted(old(history), old(conversation.history)))
      ensures var view := if needScroll then old(conversation.history) else old(history);
        shown == Visible(view, old(currentRole).prompt) &&
        if deleteClicked.Some? && deleteClicked.value < |view| && view[deleteClicked.value].role != System
        then history == [] && conversation == null
        else history == view && conversation == old(conversation)
      ensures currentRole == old(currentRole) && settings == old(settings) && pmt == old(pmt)
    {
      needScroll := SyncNewMessage();
      var snapshot := history;
      shown := RenderedTranscript(snapshot, currentRole.prompt);
      if deleteClicked.Some? && deleteClicked.value < |snapshot| && snapshot[deleteClicked.value].role != System {
        Reset();
      }
    }
  }
}
